/** The parts of the agents' tools that do not depend on an agent: the
    code-block parser, the Git URI pattern, the file router and the tool
    messages. */
module Tools {
  import opened Wrappers
  import opened Text

  const Fence := "```"

  // ---------------------------------------------------------------------
  // parse_code_gen

  /** `{'code': ..., 'readme': ...}`. */
  datatype CodeArtifact = CodeArtifact(code: string, readme: string)

  const CodePlaceholder := "Generated code cannot be parsed!"
  const ReadmePlaceholder := "Generated README cannot be parsed!"
  const Rag := "RAG"

  /** The pattern ```` ```[^\n]*\n(.+?)``` ```` matched at the start of `out`:
      an opening fence, the rest of its line up to the newline at `nl`, then
      the code from `nl + 1` up to a closing fence at `close`, at least one
      character later. */
  predicate FencedBlock(out: string, nl: nat, close: nat) {
    OccursAt(out, Fence, 0)
    && 3 <= nl < |out| && out[nl] == '\n'
    && (forall k :: 3 <= k < nl ==> out[k] != '\n')
    && nl + 2 <= close && OccursAt(out, Fence, close)
  }

  /** Position of the first newline at or after `from`. */
  function FindNewline(s: string, from: nat): (r: Option<nat>)
    ensures r.Some? ==> (from <= r.value < |s| && s[r.value] == '\n'
      && forall k :: from <= k < r.value ==> s[k] != '\n')
    ensures r.None? ==> forall k :: from <= k < |s| ==> s[k] != '\n'
    decreases |s| - from
  {
    if from >= |s| then None
    else if s[from] == '\n' then Some(from)
    else FindNewline(s, from + 1)
  }

  /** Where the pattern matches, if it does: the newline that ends the fence
      line and the closing fence, the first one that leaves the group
      non-empty. */
  function MatchBlock(out: string): (r: Option<(nat, nat)>)
    ensures r.None? <==> forall nl: nat, close: nat :: !FencedBlock(out, nl, close)
    ensures r.Some? ==> FencedBlock(out, r.value.0, r.value.1)
    ensures r.Some? ==> forall k :: r.value.0 + 2 <= k < r.value.1 ==> !OccursAt(out, Fence, k)
  {
    if !OccursAt(out, Fence, 0) then None
    else
      match FindNewline(out, 3)
      case None => None
      case Some(nl) =>
        match Find(out, Fence, nl + 2)
        case None =>
          assert forall n: nat, c: nat :: !FencedBlock(out, n, c) by {
            forall n: nat, c: nat ensures !FencedBlock(out, n, c) { }
          }
          None
        case Some(close) =>
          assert FencedBlock(out, nl, close);
          Some((nl, close))
  }

  /** Returns the artifact and whether the output started with a fenced
      block: the code is the group, the README the text after the last fence. */
  function ParseCodeGen(out: string): (r: (CodeArtifact, bool))
    ensures r.1 <==> exists nl: nat, close: nat :: FencedBlock(out, nl, close)
    ensures !r.1 ==> r.0 == CodeArtifact(CodePlaceholder, ReadmePlaceholder)
    ensures r.1 ==> (MatchBlock(out).Some?
      && r.0 == CodeArtifact(out[MatchBlock(out).value.0 + 1..MatchBlock(out).value.1], Last(Split(out, Fence))))
  {
    match MatchBlock(out)
    case None => (CodeArtifact(CodePlaceholder, ReadmePlaceholder), false)
    case Some((nl, close)) => (CodeArtifact(out[nl + 1..close], Last(Split(out, Fence))), true)
  }

  /** The code of a successful parse is the text between the fence line and
      the next fence: no fence starts inside it, except at its very first
      character (the lazy group must take at least one character). */
  lemma ParsedCodeHasNoFence(out: string, i: nat)
    requires ParseCodeGen(out).1 && 1 <= i
    ensures !OccursAt(ParseCodeGen(out).0.code, Fence, i)
  {
    var m := MatchBlock(out).value;
    var code := out[m.0 + 1..m.1];
    assert ParseCodeGen(out).0.code == code;
    if i + 3 <= |code| {
      SliceOfSlice(out, m.0 + 1, m.1, i, i + 3);
      assert !OccursAt(out, Fence, m.0 + 1 + i);
    }
  }

  /** An output that does not start with a fence never parses. */
  lemma UnfencedFails(out: string)
    requires !OccursAt(out, Fence, 0)
    ensures ParseCodeGen(out) == (CodeArtifact(CodePlaceholder, ReadmePlaceholder), false)
  {
  }

  // ---------------------------------------------------------------------
  // download_code: the pattern `\/(\w+)\.git`

  /** A word character (ASCII letters, digits and `_`). */
  predicate IsWordChar(c: char) {
    'a' <= c <= 'z' || 'A' <= c <= 'Z' || '0' <= c <= '9' || c == '_'
  }

  /** The pattern matches at `i` with its group `uri[i + 1..j]`: a slash, a
      non-empty run of word characters, then `.git`. */
  predicate RepoMatch(uri: string, i: nat, j: nat) {
    i < |uri| && uri[i] == '/' && i + 1 < j
    && (forall k :: i + 1 <= k < j && k < |uri| ==> IsWordChar(uri[k]))
    && OccursAt(uri, ".git", j)
  }

  /** End of the run of word characters starting at `from`. */
  function WordEnd(s: string, from: nat): (j: nat)
    requires from <= |s|
    ensures from <= j <= |s|
    ensures forall k :: from <= k < j ==> IsWordChar(s[k])
    ensures j < |s| ==> !IsWordChar(s[j])
    decreases |s| - from
  {
    if from == |s| || !IsWordChar(s[from]) then from else WordEnd(s, from + 1)
  }

  /** A match at `i` can end only where the run of word characters ends. */
  lemma RepoMatchEnd(uri: string, i: nat, j: nat)
    requires RepoMatch(uri, i, j)
    ensures j == WordEnd(uri, i + 1)
  {
    assert uri[j..j + 4] == ".git";
    assert uri[j] == '.';
  }

  /** The leftmost match at or after `from`. */
  function FirstRepoMatch(uri: string, from: nat): (r: Option<(nat, nat)>)
    ensures r.Some? ==> RepoMatch(uri, r.value.0, r.value.1) && from <= r.value.0
    ensures r.Some? ==> forall i: nat, j: nat :: from <= i < r.value.0 ==> !RepoMatch(uri, i, j)
    ensures r.None? ==> forall i: nat, j: nat :: from <= i ==> !RepoMatch(uri, i, j)
    decreases |uri| - from
  {
    if from >= |uri| then None
    else
      var j := WordEnd(uri, from + 1);
      if uri[from] == '/' && from + 1 < j && OccursAt(uri, ".git", j) then
        assert RepoMatch(uri, from, j);
        Some((from, j))
      else
        assert forall j': nat :: !RepoMatch(uri, from, j') by {
          forall j': nat | RepoMatch(uri, from, j') ensures j' == j { RepoMatchEnd(uri, from, j'); }
        }
        FirstRepoMatch(uri, from + 1)
  }

  /** `re.findall(...)[0]`: the group of the leftmost match, or `None` where
      the indexing raises `IndexError`. */
  function GitRepoName(uri: string): (r: Option<string>)
    ensures r.None? <==> forall i: nat, j: nat :: !RepoMatch(uri, i, j)
  {
    match FirstRepoMatch(uri, 0)
    case None => None
    case Some((i, j)) =>
      assert RepoMatch(uri, i, j);
      Some(uri[i + 1..j])
  }

  /** A found repository name is the group of the leftmost match: non-empty,
      word characters only, preceded by a slash and followed by `.git`. */
  lemma GitRepoNameIsLeftmost(uri: string)
    requires GitRepoName(uri).Some?
    ensures exists i: nat, j: nat :: (RepoMatch(uri, i, j) && GitRepoName(uri).value == uri[i + 1..j]
      && forall i': nat, j': nat :: i' < i ==> !RepoMatch(uri, i', j'))
  {
    var m := FirstRepoMatch(uri, 0).value;
    assert RepoMatch(uri, m.0, m.1) && GitRepoName(uri).value == uri[m.0 + 1..m.1];
  }

  /** The name never contains a slash or a dot, and is never empty. */
  lemma GitRepoNameIsWord(uri: string)
    requires GitRepoName(uri).Some?
    ensures |GitRepoName(uri).value| > 0
    ensures forall k :: 0 <= k < |GitRepoName(uri).value| ==> IsWordChar(GitRepoName(uri).value[k])
  {
    var m := FirstRepoMatch(uri, 0).value;
    var name := uri[m.0 + 1..m.1];
    forall k | 0 <= k < |name| ensures IsWordChar(name[k]) {
      assert name[k] == uri[m.0 + 1 + k];
    }
  }

  /** The message `download_code` returns for a URI without a match. */
  const IncorrectUriMsg := "Code download was unsuccessful due to incorrect Git URI.\n"
    + "Make sure the 'checkout_uri' is a Git URI.\n"
    + "Instead, set the search query to 'Repository summary for REPO_NAME' where REPO_NAME is the name of the repository."

  function DownloadSuccessMsg(repo: string): string {
    "Code for " + repo + " successfully downloaded in the ROS workspace!"
  }

  function DownloadFailureMsg(repo: string): string {
    "Code download for " + repo + " was unsuccessful!"
  }

  // ---------------------------------------------------------------------
  // write_ros_node messages

  const NoCodeNeededMsg := "There is no need to generate code for this ROS node!"
  const CodeSuccessMsg := "Python implementation of the ROS node is successfully done!"
  const CodeFailureMsg := "Python implementation of the ROS node was unsuccessful!"

  // ---------------------------------------------------------------------
  // the four package-file tools

  /** The file an editing tool rewrites. */
  datatype PackageFile = LaunchFile | PackageXml | CMakeLists | ReadmeFile

  /** How the tool messages name the file. */
  function FileTitle(f: PackageFile): string {
    match f
    case LaunchFile => "ROS launch file"
    case PackageXml => "package.xml file"
    case CMakeLists => "CMakeLists.txt file"
    case ReadmeFile => "README.md file"
  }

  function EditSuccessMsg(f: PackageFile): string {
    "The " + FileTitle(f) + " for the ROS package has been successfully edited!"
  }

  function EditFailureMsg(f: PackageFile): string {
    "Modification of the " + FileTitle(f) + " for the ROS package was unsuccessful!"
  }

  /** Whether the tool asks the model for a fresh file or for an edit of the
      current one. */
  datatype PromptMode = Generate | Edit

  /** A tool generates while its file is still `None` and edits afterwards. */
  function ModeFor(current: Option<string>): PromptMode {
    if current.None? then Generate else Edit
  }

  /** What one editing tool call does with the model's output: the new file
      content and the returned message. */
  function EditFile(f: PackageFile, current: Option<string>, output: string): (r: (Option<string>, string))
    ensures ParseCodeGen(output).1 ==> r == (Some(ParseCodeGen(output).0.code), EditSuccessMsg(f))
    ensures !ParseCodeGen(output).1 ==> r == (current, EditFailureMsg(f))
  {
    (Edited(current, output), if ParseCodeGen(output).1 then EditSuccessMsg(f) else EditFailureMsg(f))
  }

  /** The file content after a tool call, without its message. */
  function Edited(current: Option<string>, output: string): Option<string> {
    var parsed := ParseCodeGen(output);
    if parsed.1 then Some(parsed.0.code) else current
  }

  /** A tool call never turns a generated file back into `None`, and its
      message tells whether the file changed. */
  lemma EditFileKeepsGenerated(f: PackageFile, current: Option<string>, output: string)
    ensures current.Some? ==> EditFile(f, current, output).0.Some?
    ensures EditFile(f, current, output).1 == EditSuccessMsg(f) <==> ParseCodeGen(output).1
  {
    assert EditSuccessMsg(f)[0] == 'T' && EditFailureMsg(f)[0] == 'M';
  }

  // ---------------------------------------------------------------------
  // load_file

  /** Python's `str(x)` of an optional string: `None` prints as "None". */
  function PyStr(o: Option<string>): string {
    match o
    case None => "None"
    case Some(s) => s
  }

  const OpenErrorMsg := "File cannot be opened! It can be due to an incorrect file name, or the file might be missing!"

  /** Where `load_file` looks for a file: Python sources under `src/`,
      launch files under `launch/`, anything else at the package root; the
      test is substring containment, checked for `.py` first. */
  function LoadFilePath(wsName: string, projectName: Option<string>, fileName: string): (p: string)
  {
    var base := wsName + "/src/" + PyStr(projectName) + "/";
    if Contains(fileName, ".py") then base + "src/" + fileName
    else if Contains(fileName, ".launch") then base + "launch/" + fileName
    else base + fileName
  }

  /** Every path `load_file` opens lies in the package directory and ends
      with the requested name; the subdirectory follows the name. */
  lemma LoadFilePathRouting(wsName: string, projectName: Option<string>, fileName: string)
    ensures var base := wsName + "/src/" + PyStr(projectName) + "/";
      exists dir :: LoadFilePath(wsName, projectName, fileName) == base + dir + fileName
        && (dir == "src/" <==> Contains(fileName, ".py"))
        && (dir == "launch/" <==> !Contains(fileName, ".py") && Contains(fileName, ".launch"))
        && (dir == "" <==> !Contains(fileName, ".py") && !Contains(fileName, ".launch"))
  {
    var base := wsName + "/src/" + PyStr(projectName) + "/";
    if Contains(fileName, ".py") {
      assert LoadFilePath(wsName, projectName, fileName) == base + "src/" + fileName;
    } else if Contains(fileName, ".launch") {
      assert LoadFilePath(wsName, projectName, fileName) == base + "launch/" + fileName;
    } else {
      assert LoadFilePath(wsName, projectName, fileName) == base + "" + fileName;
    }
  }

  /** `load_file` against the files on disk (path -> content): the content
      of the routed path, or the error text when it cannot be opened. */
  function LoadFile(files: map<string, string>, wsName: string, projectName: Option<string>, fileName: string): (r: string)
    ensures LoadFilePath(wsName, projectName, fileName) in files ==> r == files[LoadFilePath(wsName, projectName, fileName)]
    ensures LoadFilePath(wsName, projectName, fileName) !in files ==> r == OpenErrorMsg
  {
    var p := LoadFilePath(wsName, projectName, fileName);
    if p in files then files[p] else OpenErrorMsg
  }
}
