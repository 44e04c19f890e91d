/** One repository of the ROS index and the documents it gives the vector
    store: its summary, its package list, its README and its contributing
    notes. Each text is cut into chunks by the text splitter, every chunk
    becomes a document carrying a copy of the repository's metadata, and a
    title is then written into the metadata of the documents. */
module RosIndexRepo {
  import opened Wrappers
  import opened Text

  /** The metadata of a document: the repository URI, the language and the
      title, which is absent until the documents are titled. */
  datatype Metadata = Metadata(source: string, language: string, title: Option<string>)

  datatype Document = Document(content: string, metadata: Metadata)

  /** A package of the repository: its name and version. */
  datatype Package = Package(name: string, version: string)

  // ---------------------------------------------------------------------
  // Decimal numerals, for the part numbers of the titles

  /** Every character is a decimal digit. */
  predicate IsDigits(s: string) {
    forall i :: 0 <= i < |s| ==> '0' <= s[i] <= '9'
  }

  /** Python's `str(n)` for a natural number. */
  function Decimal(n: nat): (r: string)
    ensures r != [] && IsDigits(r)
  {
    if n < 10 then [(48 + n) as char] else Decimal(n / 10) + [(48 + n % 10) as char]
  }

  /** The number a string of decimal digits denotes. */
  function DigitsValue(s: string): nat
    requires IsDigits(s)
  {
    if s == [] then 0 else DigitsValue(s[..|s| - 1]) * 10 + (s[|s| - 1] as int - 48)
  }

  /** Reading a numeral back gives the number. */
  lemma {:induction false} DecimalRoundTrip(n: nat)
    ensures DigitsValue(Decimal(n)) == n
    decreases n
  {
    var r := Decimal(n);
    if n >= 10 {
      DecimalRoundTrip(n / 10);
      assert r[..|r| - 1] == Decimal(n / 10);
    } else {
      assert r[..|r| - 1] == [];
    }
  }

  /** Different numbers have different numerals. */
  lemma DecimalInjective(a: nat, b: nat)
    requires Decimal(a) == Decimal(b)
    ensures a == b
  {
    DecimalRoundTrip(a);
    DecimalRoundTrip(b);
  }

  // ---------------------------------------------------------------------
  // Documents and their titles

  /** `create_documents` on one text: a document per chunk, each with its own
      copy of the metadata. */
  function Documents(chunks: seq<string>, meta: Metadata): (r: seq<Document>)
    ensures |r| == |chunks|
    ensures forall i :: 0 <= i < |r| ==> r[i].content == chunks[i] && r[i].metadata == meta
  {
    seq(|chunks|, i requires 0 <= i < |chunks| => Document(chunks[i], meta))
  }

  /** The document with `title` written into its metadata. */
  function Titled(d: Document, title: string): Document {
    d.(metadata := d.metadata.(title := Some(title)))
  }

  /** Every document carries the source and the language of `meta`. */
  predicate Carries(docs: seq<Document>, meta: Metadata) {
    forall d :: d in docs ==> d.metadata.source == meta.source && d.metadata.language == meta.language
  }

  /** Titling the first document, which raises `IndexError` when the
      splitter gave none. */
  function TitleFirst(docs: seq<Document>, title: string): (r: Outcome<seq<Document>>)
    ensures r.Thrown? <==> docs == []
    ensures r.Thrown? ==> r.exception == "IndexError"
    ensures r.Normal? ==> |r.value| == |docs| && r.value[0] == Titled(docs[0], title) && r.value[1..] == docs[1..]
  {
    if docs == [] then Thrown("IndexError") else Normal(docs[0 := Titled(docs[0], title)])
  }

  /** The title of part `i` (counted from one) of a split text. */
  function PartTitle(heading: string, i: nat): string {
    heading + ", part " + Decimal(i)
  }

  /** Every document titled as a numbered part. */
  function PartsTitled(docs: seq<Document>, heading: string): seq<Document> {
    seq(|docs|, i requires 0 <= i < |docs| => Titled(docs[i], PartTitle(heading, i + 1)))
  }

  /** The titling the README and the contributing notes share: several
      chunks are numbered parts; no chunk falls back to the chunks of the
      `missing` message; a lone chunk, or the first fallback chunk, gets the
      heading as its title. */
  function ChunkDocs(chunks: seq<string>, fallback: seq<string>, meta: Metadata, heading: string): Outcome<seq<Document>> {
    if |chunks| > 1 then Normal(PartsTitled(Documents(chunks, meta), heading))
    else if chunks == [] then TitleFirst(Documents(fallback, meta), heading)
    else TitleFirst(Documents(chunks, meta), heading)
  }

  /** The loop numbering the parts, writing each title in place. */
  method TitleParts(docs0: seq<Document>, heading: string) returns (docs: seq<Document>)
    ensures docs == PartsTitled(docs0, heading)
  {
    docs := docs0;
    var i := 0;
    while i < |docs|
      invariant 0 <= i <= |docs| == |docs0|
      invariant forall k :: 0 <= k < i ==> docs[k] == Titled(docs0[k], PartTitle(heading, k + 1))
      invariant forall k :: i <= k < |docs| ==> docs[k] == docs0[k]
    {
      docs := docs[i := Titled(docs[i], PartTitle(heading, i + 1))];
      i := i + 1;
    }
  }

  /** With several chunks, document `i` holds chunk `i` and is titled as
      part `i + 1`, and no two parts share a title. */
  lemma ChunkDocsParts(chunks: seq<string>, fallback: seq<string>, meta: Metadata, heading: string, i: nat, j: nat)
    requires |chunks| > 1 && i < |chunks| && j < |chunks|
    ensures ChunkDocs(chunks, fallback, meta, heading).Normal?
    ensures var docs := ChunkDocs(chunks, fallback, meta, heading).value;
      |docs| == |chunks| && docs[i].content == chunks[i] && docs[i].metadata.title == Some(PartTitle(heading, i + 1))
    ensures var docs := ChunkDocs(chunks, fallback, meta, heading).value;
      i != j ==> docs[i].metadata.title != docs[j].metadata.title
  {
    if i != j && PartTitle(heading, i + 1) == PartTitle(heading, j + 1) {
      var p := |heading + ", part "|;
      assert PartTitle(heading, i + 1)[p..] == Decimal(i + 1);
      assert PartTitle(heading, j + 1)[p..] == Decimal(j + 1);
      DecimalInjective(i + 1, j + 1);
    }
  }

  /** A lone chunk is one document titled with the heading. */
  lemma ChunkDocsSingle(chunks: seq<string>, fallback: seq<string>, meta: Metadata, heading: string)
    requires |chunks| == 1
    ensures ChunkDocs(chunks, fallback, meta, heading)
         == Normal([Document(chunks[0], meta.(title := Some(heading)))])
  {
    LoneTitled(chunks, meta, heading);
  }

  /** Without chunks the fallback message stands in, its first chunk titled
      with the heading; only a fallback that splits into nothing raises. */
  lemma ChunkDocsMissing(chunks: seq<string>, fallback: seq<string>, meta: Metadata, heading: string)
    requires chunks == []
    ensures ChunkDocs(chunks, fallback, meta, heading).Thrown? <==> fallback == []
    ensures |fallback| == 1 ==>
      ChunkDocs(chunks, fallback, meta, heading) == Normal([Document(fallback[0], meta.(title := Some(heading)))])
  {
    if |fallback| == 1 {
      LoneTitled(fallback, meta, heading);
    }
  }

  /** One chunk makes one document, titled with the heading. */
  lemma LoneTitled(chunks: seq<string>, meta: Metadata, heading: string)
    requires |chunks| == 1
    ensures TitleFirst(Documents(chunks, meta), heading) == Normal([Document(chunks[0], meta.(title := Some(heading)))])
  {
    var ds := Documents(chunks, meta);
    assert ds == [Document(chunks[0], meta)];
    assert ds[0 := Titled(ds[0], heading)] == [Titled(ds[0], heading)];
  }

  /** Titling keeps the source and the language of every document. */
  lemma ChunkDocsCarry(chunks: seq<string>, fallback: seq<string>, meta: Metadata, heading: string)
    requires ChunkDocs(chunks, fallback, meta, heading).Normal?
    ensures Carries(ChunkDocs(chunks, fallback, meta, heading).value, meta)
  {
    var docs := ChunkDocs(chunks, fallback, meta, heading).value;
    forall d | d in docs
      ensures d.metadata.source == meta.source && d.metadata.language == meta.language
    {
      var k :| 0 <= k < |docs| && docs[k] == d;
      if |chunks| <= 1 && k > 0 {
        assert docs[1..][k - 1] == d;
      }
    }
  }

  /** The line a package contributes to the package list. */
  function VersionLine(p: Package): string {
    p.name + " (version: " + p.version + ")\n"
  }

  /** The lines of the packages, in order. */
  function VersionLines(ps: seq<Package>): (r: seq<string>)
    ensures |r| == |ps|
  {
    if ps == [] then [] else VersionLines(ps[..|ps| - 1]) + [VersionLine(ps[|ps| - 1])]
  }

  lemma {:induction false} VersionLinesAt(ps: seq<Package>, i: nat)
    requires i < |ps|
    ensures VersionLines(ps)[i] == VersionLine(ps[i])
    decreases |ps|
  {
    var front := ps[..|ps| - 1];
    var x := VersionLine(ps[|ps| - 1]);
    assert VersionLines(ps) == VersionLines(front) + [x];
    if i < |front| {
      VersionLinesAt(front, i);
      assert ps[i] == front[i];
      assert (VersionLines(front) + [x])[i] == VersionLines(front)[i];
    } else {
      assert i == |ps| - 1;
    }
  }

  /** The message of a repository without packages. */
  function NoPackages(repoName: string): string {
    "No packages available for " + repoName + "."
  }

  class IndexRepo {
    const repoName: string
    const checkoutUri: string
    const vcsType: string
    const vcsVersion: string
    const lastUpdated: string
    const devStatus: string
    const ciStatus: string
    const released: string
    const tags: string
    const packages: seq<Package>
    const readme: string
    const contrib: string
    /** The metadata every document starts from. */
    const repoMetadata: Metadata

    constructor (repoUri: string, repoName: string, checkoutUri: string, vcsType: string, vcsVersion: string,
                 lastUpdated: string, devStatus: string, ciStatus: string, released: string, tags: string,
                 packages: seq<Package>, readme: string, contrib: string)
      ensures this.repoName == repoName && this.checkoutUri == checkoutUri && this.vcsType == vcsType
      ensures this.vcsVersion == vcsVersion && this.lastUpdated == lastUpdated && this.devStatus == devStatus
      ensures this.ciStatus == ciStatus && this.released == released && this.tags == tags
      ensures this.packages == packages && this.readme == readme && this.contrib == contrib
      ensures repoMetadata == Metadata(repoUri, "en", None)
    {
      this.repoName := repoName;
      this.checkoutUri := checkoutUri;
      this.vcsType := vcsType;
      this.vcsVersion := vcsVersion;
      this.lastUpdated := lastUpdated;
      this.devStatus := devStatus;
      this.ciStatus := ciStatus;
      this.released := released;
      this.tags := tags;
      this.packages := packages;
      this.readme := readme;
      this.contrib := contrib;
      repoMetadata := Metadata(repoUri, "en", None);
    }

    // -------------------------------------------------------------------
    // get_repo_summary

    function SummaryHeading(): string { "Repository summary for " + repoName }

    /** The summary text, one field per line. */
    function SummaryText(): string {
      SummaryHeading() + ":\nCheckout URI: " + checkoutUri + "\nVCS Type: " + vcsType
        + "\nVCS Version: " + vcsVersion + "\nLast Updated: " + lastUpdated + "\nDev Status: " + devStatus
        + "\nCI status: " + ciStatus + "\nReleased: " + released + "\nTags: " + tags
    }

    /** `get_repo_summary`, given the splitter configured for whole texts. */
    function RepoSummary(bigSplit: string -> seq<string>): Outcome<seq<Document>> {
      TitleFirst(Documents(bigSplit(SummaryText()), repoMetadata), SummaryHeading())
    }

    // -------------------------------------------------------------------
    // get_repo_packages

    function PackagesHeading(): string { "ROS packages for " + repoName }

    /** The package list: a line per package in order, or the message of a
        repository without packages. */
    function PackagesText(): string {
      if |packages| > 0 then Concat(VersionLines(packages)) else NoPackages(repoName)
    }

    function RepoPackages(bigSplit: string -> seq<string>): Outcome<seq<Document>> {
      TitleFirst(Documents(bigSplit(PackagesText()), repoMetadata), PackagesHeading())
    }

    /** `get_repo_packages`: the list built line by line, then split and
        titled. */
    method GetRepoPackages(bigSplit: string -> seq<string>) returns (r: Outcome<seq<Document>>)
      ensures r == RepoPackages(bigSplit)
    {
      var s := "";
      if |packages| > 0 {
        var i := 0;
        while i < |packages|
          invariant 0 <= i <= |packages|
          invariant s == Concat(VersionLines(packages[..i]))
        {
          assert packages[..i + 1][..i] == packages[..i];
          ConcatSnoc(VersionLines(packages[..i]), VersionLine(packages[i]));
          s := s + VersionLine(packages[i]);
          i := i + 1;
        }
        assert packages[..i] == packages;
      } else {
        s := s + NoPackages(repoName);
        assert s == NoPackages(repoName);
      }
      assert s == PackagesText();
      r := TitleFirst(Documents(bigSplit(s), repoMetadata), PackagesHeading());
    }

    /** Without packages the list is the message alone; otherwise every
        package's line is in it, in the order of the packages. */
    lemma PackagesListed(i: nat, j: nat)
      ensures |packages| == 0 ==> PackagesText() == NoPackages(repoName)
      ensures i <= j < |packages| ==> exists p: nat, q: nat ::
        && OccursAt(PackagesText(), VersionLine(packages[i]), p)
        && OccursAt(PackagesText(), VersionLine(packages[j]), q)
        && (i < j ==> p + |VersionLine(packages[i])| <= q)
    {
      if i <= j < |packages| {
        var ls := VersionLines(packages);
        VersionLinesAt(packages, i);
        VersionLinesAt(packages, j);
        ConcatOccurs(ls, i);
        ConcatOccurs(ls, j);
        if i < j {
          ConcatBefore(ls, i, j);
        }
        var p, q := |Concat(ls[..i])|, |Concat(ls[..j])|;
        assert OccursAt(PackagesText(), VersionLine(packages[i]), p);
        assert OccursAt(PackagesText(), VersionLine(packages[j]), q);
      }
    }

    // -------------------------------------------------------------------
    // get_repo_readme and get_repo_contrib

    function ReadmeHeading(): string { "README of " + repoName }
    function ContribHeading(): string { "Contributing information of " + repoName }

    /** `get_repo_readme`, given the splitter configured with the chunk size. */
    function RepoReadme(split: string -> seq<string>): Outcome<seq<Document>> {
      ChunkDocs(split(readme), split("No README found."), repoMetadata, ReadmeHeading())
    }

    /** `get_repo_contrib`, given the splitter configured with the chunk size. */
    function RepoContrib(split: string -> seq<string>): Outcome<seq<Document>> {
      ChunkDocs(split(contrib), split("No Contributing found."), repoMetadata, ContribHeading())
    }

    /** The body `get_repo_readme` and `get_repo_contrib` share. */
    method SplitAndTitle(text: string, missing: string, heading: string, split: string -> seq<string>)
      returns (r: Outcome<seq<Document>>)
      ensures r == ChunkDocs(split(text), split(missing), repoMetadata, heading)
    {
      var docs := Documents(split(text), repoMetadata);
      if |docs| > 1 {
        docs := TitleParts(docs, heading);
        r := Normal(docs);
      } else {
        if |docs| == 0 {
          docs := Documents(split(missing), repoMetadata);
        }
        r := TitleFirst(docs, heading);
      }
    }

    method GetRepoReadme(split: string -> seq<string>) returns (r: Outcome<seq<Document>>)
      ensures r == RepoReadme(split)
    {
      r := SplitAndTitle(readme, "No README found.", ReadmeHeading(), split);
    }

    method GetRepoContrib(split: string -> seq<string>) returns (r: Outcome<seq<Document>>)
      ensures r == RepoContrib(split)
    {
      r := SplitAndTitle(contrib, "No Contributing found.", ContribHeading(), split);
    }

    // -------------------------------------------------------------------
    // get_all_repo_info

    /** The documents of the summary, the packages, the README and the
        contributing notes, in that order; the first exception stops it. */
    function AllRepoInfo(bigSplit: string -> seq<string>, split: string -> seq<string>): Outcome<seq<Document>> {
      Extend(Extend(Extend(Extend(Normal([]), RepoSummary(bigSplit)), RepoPackages(bigSplit)), RepoReadme(split)), RepoContrib(split))
    }

    /** `get_all_repo_info`: the four lists extended one after the other. */
    method GetAllRepoInfo(bigSplit: string -> seq<string>, split: string -> seq<string>) returns (r: Outcome<seq<Document>>)
      ensures r == AllRepoInfo(bigSplit, split)
    {
      var all: seq<Document> := [];
      var summary := RepoSummary(bigSplit);
      if summary.Thrown? {
        return Thrown(summary.exception);
      }
      all := all + summary.value;
      var pkgs := GetRepoPackages(bigSplit);
      if pkgs.Thrown? {
        return Thrown(pkgs.exception);
      }
      all := all + pkgs.value;
      var rd := GetRepoReadme(split);
      if rd.Thrown? {
        return Thrown(rd.exception);
      }
      all := all + rd.value;
      var cb := GetRepoContrib(split);
      if cb.Thrown? {
        return Thrown(cb.exception);
      }
      all := all + cb.value;
      r := Normal(all);
    }

    /** The documents of all four parts, in order, when none raises; else
        the exception of the first part that raises. */
    lemma AllRepoInfoOrder(bigSplit: string -> seq<string>, split: string -> seq<string>)
      ensures var s, p, rd, cb := RepoSummary(bigSplit), RepoPackages(bigSplit), RepoReadme(split), RepoContrib(split);
        && (AllRepoInfo(bigSplit, split).Normal? <==> s.Normal? && p.Normal? && rd.Normal? && cb.Normal?)
        && (AllRepoInfo(bigSplit, split).Normal? ==> AllRepoInfo(bigSplit, split).value == s.value + p.value + rd.value + cb.value)
        && (s.Thrown? ==> AllRepoInfo(bigSplit, split) == Thrown(s.exception))
        && (s.Normal? && p.Thrown? ==> AllRepoInfo(bigSplit, split) == Thrown(p.exception))
        && (s.Normal? && p.Normal? && rd.Thrown? ==> AllRepoInfo(bigSplit, split) == Thrown(rd.exception))
        && (s.Normal? && p.Normal? && rd.Normal? && cb.Thrown? ==> AllRepoInfo(bigSplit, split) == Thrown(cb.exception))
    {
      ExtendFour(RepoSummary(bigSplit), RepoPackages(bigSplit), RepoReadme(split), RepoContrib(split));
    }

    /** All the documents of a repository carry its URI as source and `en`
        as language, and the first of them is the titled summary. */
    lemma AllRepoInfoCarries(bigSplit: string -> seq<string>, split: string -> seq<string>)
      requires AllRepoInfo(bigSplit, split).Normal?
      ensures Carries(AllRepoInfo(bigSplit, split).value, repoMetadata)
      ensures AllRepoInfo(bigSplit, split).value != []
      ensures AllRepoInfo(bigSplit, split).value[0].metadata.title == Some(SummaryHeading())
    {
      var s, p := RepoSummary(bigSplit), RepoPackages(bigSplit);
      var rd, cb := RepoReadme(split), RepoContrib(split);
      AllRepoInfoOrder(bigSplit, split);
      FirstCarries(Documents(bigSplit(SummaryText()), repoMetadata), repoMetadata, SummaryHeading());
      FirstCarries(Documents(bigSplit(PackagesText()), repoMetadata), repoMetadata, PackagesHeading());
      ChunkDocsCarry(split(readme), split("No README found."), repoMetadata, ReadmeHeading());
      ChunkDocsCarry(split(contrib), split("No Contributing found."), repoMetadata, ContribHeading());
      CarriesAppend(s.value, p.value, rd.value, cb.value, repoMetadata);
    }
  }

  /** `acc.extend(next)` on the documents gathered so far. */
  function Extend(acc: Outcome<seq<Document>>, next: Outcome<seq<Document>>): Outcome<seq<Document>> {
    if acc.Thrown? then acc
    else if next.Thrown? then Thrown(next.exception)
    else Normal(acc.value + next.value)
  }

  /** Extending an empty list by four lists in turn. */
  lemma ExtendFour(a: Outcome<seq<Document>>, b: Outcome<seq<Document>>, c: Outcome<seq<Document>>, d: Outcome<seq<Document>>)
    ensures var r := Extend(Extend(Extend(Extend(Normal([]), a), b), c), d);
      && (r.Normal? <==> a.Normal? && b.Normal? && c.Normal? && d.Normal?)
      && (r.Normal? ==> r.value == a.value + b.value + c.value + d.value)
      && (a.Thrown? ==> r == Thrown(a.exception))
      && (a.Normal? && b.Thrown? ==> r == Thrown(b.exception))
      && (a.Normal? && b.Normal? && c.Thrown? ==> r == Thrown(c.exception))
      && (a.Normal? && b.Normal? && c.Normal? && d.Thrown? ==> r == Thrown(d.exception))
  {
    if a.Normal? {
      assert [] + a.value == a.value;
    }
  }

  lemma FirstCarries(docs: seq<Document>, meta: Metadata, title: string)
    requires Carries(docs, meta) && TitleFirst(docs, title).Normal?
    ensures Carries(TitleFirst(docs, title).value, meta)
  {
    var r := TitleFirst(docs, title).value;
    forall d | d in r
      ensures d.metadata.source == meta.source && d.metadata.language == meta.language
    {
      var k :| 0 <= k < |r| && r[k] == d;
      if k > 0 {
        assert r[1..][k - 1] == d && docs[1..][k - 1] in docs;
      }
    }
  }

  lemma CarriesAppend(a: seq<Document>, b: seq<Document>, c: seq<Document>, d: seq<Document>, meta: Metadata)
    requires Carries(a, meta) && Carries(b, meta) && Carries(c, meta) && Carries(d, meta)
    ensures Carries(a + b + c + d, meta)
  {
  }
}
