/** The scraping helpers of the ROS index: the whitespace cleaner applied to
    repository fields, and the collection of repository links from the index
    pages of one ROS distribution. The parsed HTML of a page is abstracted to
    its `div` elements, each with its class list and the links inside it. */
module BsTransformer {
  import opened Wrappers
  import opened Text

  // ---------------------------------------------------------------------
  // remove_line_space

  /** `ROSRepoTransformer.remove_line_space`: drops every newline when
      `line` is set, then every space when `space` is set. */
  function RemoveLineSpace(input: string, line: bool, space: bool): string {
    var text := if line then ReplaceAll(input, "\n", "") else input;
    if space then ReplaceAll(text, " ", "") else text
  }

  /** The characters the flags select for deletion. */
  function Removed(line: bool, space: bool): set<char> {
    (if line then {'\n'} else {}) + (if space then {' '} else {})
  }

  lemma {:induction false} StripNothing(s: string)
    ensures Strip(s, {}) == s
    decreases |s|
  {
    if s != [] {
      StripNothing(s[1..]);
      assert s == [s[0]] + s[1..];
    }
  }

  /** The output is the input with exactly the selected characters deleted,
      the others kept in order: no newline is left when `line` is set, no
      space when `space` is set, and with both flags off nothing changes. */
  lemma RemoveLineSpaceDeletes(input: string, line: bool, space: bool)
    ensures RemoveLineSpace(input, line, space) == Strip(input, Removed(line, space))
    ensures line ==> '\n' !in RemoveLineSpace(input, line, space)
    ensures space ==> ' ' !in RemoveLineSpace(input, line, space)
    ensures !line && !space ==> RemoveLineSpace(input, line, space) == input
    ensures forall c :: c != '\n' && c != ' ' ==> multiset(RemoveLineSpace(input, line, space))[c] == multiset(input)[c]
  {
    var cs := Removed(line, space);
    RemoveLineSpaceStrips(input, line, space);
    StripContents(input, cs);
    if !line && !space {
      assert cs == {};
      StripNothing(input);
    }
  }

  lemma RemoveLineSpaceStrips(input: string, line: bool, space: bool)
    ensures RemoveLineSpace(input, line, space) == Strip(input, Removed(line, space))
  {
    var a: set<char> := if line then {'\n'} else {};
    var b: set<char> := if space then {' '} else {};
    var text := if line then ReplaceAll(input, "\n", "") else input;
    if line {
      ReplaceAllDeletes(input, '\n');
    } else {
      StripNothing(input);
    }
    if space {
      ReplaceAllDeletes(text, ' ');
    } else {
      StripNothing(text);
    }
    StripStrip(input, a, b);
  }

  // ---------------------------------------------------------------------
  // get_distro_URLs

  /** An `<a>` element: its `href` attribute (`None` when it has none) and
      its text. */
  datatype Link = Link(href: Option<string>, text: string)

  /** A `<div>` element: its class list and every link found inside it. */
  datatype Div = Div(classes: seq<string>, links: seq<Link>)

  const IndexHost := "https://index.ros.org"
  const RepoMarker := "/r/"

  /** The (URL, repository name) pairs the links contribute, in order, or
      `None` when a link without `href` is inspected: `'/r/' in None` raises
      `TypeError`. */
  function LinkPairs(links: seq<Link>): Option<seq<(string, string)>> {
    if links == [] then Some([])
    else
      match LinkPairs(links[..|links| - 1])
      case None => None
      case Some(acc) =>
        var link := links[|links| - 1];
        match link.href
        case None => None
        case Some(h) => if Contains(h, RepoMarker) then Some(acc + [(IndexHost + h, link.text)]) else Some(acc)
  }

  /** The pairs the divs of one page contribute: only divs whose class list
      holds `key` are searched. */
  function DivPairs(divs: seq<Div>, key: string): Option<seq<(string, string)>> {
    if divs == [] then Some([])
    else
      match DivPairs(divs[..|divs| - 1], key)
      case None => None
      case Some(acc) =>
        var d := divs[|divs| - 1];
        if key !in d.classes then Some(acc)
        else
          match LinkPairs(d.links)
          case None => None
          case Some(more) => Some(acc + more)
  }

  /** The pairs of all pages, page after page. */
  function PagePairs(pages: seq<seq<Div>>, key: string): Option<seq<(string, string)>> {
    if pages == [] then Some([])
    else
      match PagePairs(pages[..|pages| - 1], key)
      case None => None
      case Some(acc) =>
        match DivPairs(pages[|pages| - 1], key)
        case None => None
        case Some(more) => Some(acc + more)
  }

  function Firsts(ps: seq<(string, string)>): (r: seq<string>)
    ensures |r| == |ps|
  {
    if ps == [] then [] else Firsts(ps[..|ps| - 1]) + [ps[|ps| - 1].0]
  }

  function Seconds(ps: seq<(string, string)>): (r: seq<string>)
    ensures |r| == |ps|
  {
    if ps == [] then [] else Seconds(ps[..|ps| - 1]) + [ps[|ps| - 1].1]
  }

  /** The two projections, element by element. */
  lemma {:induction false} ProjectionsAt(ps: seq<(string, string)>)
    ensures forall i :: 0 <= i < |ps| ==> Firsts(ps)[i] == ps[i].0 && Seconds(ps)[i] == ps[i].1
    decreases |ps|
  {
    if ps != [] {
      ProjectionsAt(ps[..|ps| - 1]);
    }
  }

  /** A repository URL: the index host followed by an `href` holding `/r/`. */
  predicate RepoUrl(url: string) {
    |url| >= |IndexHost| && url[..|IndexHost|] == IndexHost && Contains(url[|IndexHost|..], RepoMarker)
  }

  lemma RepoUrlOf(h: string)
    requires Contains(h, RepoMarker)
    ensures RepoUrl(IndexHost + h)
  {
    assert (IndexHost + h)[|IndexHost|..] == h;
  }

  /** Every pair a div list yields carries a repository URL. */
  lemma {:induction false} LinkPairsUrls(links: seq<Link>)
    requires LinkPairs(links).Some?
    ensures forall p :: p in LinkPairs(links).value ==> RepoUrl(p.0)
    decreases |links|
  {
    if links != [] {
      LinkPairsUrls(links[..|links| - 1]);
      var link := links[|links| - 1];
      if Contains(link.href.value, RepoMarker) {
        RepoUrlOf(link.href.value);
      }
    }
  }

  lemma {:induction false} DivPairsUrls(divs: seq<Div>, key: string)
    requires DivPairs(divs, key).Some?
    ensures forall p :: p in DivPairs(divs, key).value ==> RepoUrl(p.0)
    decreases |divs|
  {
    if divs != [] {
      DivPairsUrls(divs[..|divs| - 1], key);
      var d := divs[|divs| - 1];
      if key in d.classes {
        LinkPairsUrls(d.links);
      }
    }
  }

  /** Every URL collected from the pages is the index host followed by an
      `href` that holds `/r/`. */
  lemma {:induction false} PagePairsUrls(pages: seq<seq<Div>>, key: string)
    requires PagePairs(pages, key).Some?
    ensures forall p :: p in PagePairs(pages, key).value ==> RepoUrl(p.0)
    decreases |pages|
  {
    if pages != [] {
      PagePairsUrls(pages[..|pages| - 1], key);
      DivPairsUrls(pages[|pages| - 1], key);
    }
  }

  /** The divs whose class list holds `key`, in order. */
  function Matching(divs: seq<Div>, key: string): (r: seq<Div>)
    ensures forall d :: d in r ==> key in d.classes
  {
    if divs == [] then []
    else Matching(divs[..|divs| - 1], key) + (if key in divs[|divs| - 1].classes then [divs[|divs| - 1]] else [])
  }

  /** Only divs carrying the distribution's class contribute: dropping all
      other divs changes nothing, errors included. */
  lemma {:induction false} OnlyMatchingDivs(divs: seq<Div>, key: string)
    ensures DivPairs(divs, key) == DivPairs(Matching(divs, key), key)
    decreases |divs|
  {
    if divs != [] {
      var front := divs[..|divs| - 1];
      var d := divs[|divs| - 1];
      OnlyMatchingDivs(front, key);
      if key in d.classes {
        var m := Matching(front, key) + [d];
        assert Matching(divs, key) == m;
        assert m[..|m| - 1] == Matching(front, key) && m[|m| - 1] == d;
      } else {
        assert Matching(divs, key) == Matching(front, key);
      }
    }
  }

  /** A page without any div of the distribution contributes nothing. */
  lemma NoMatchNoPairs(divs: seq<Div>, key: string)
    requires forall d :: d in divs ==> key !in d.classes
    ensures DivPairs(divs, key) == Some([])
  {
    OnlyMatchingDivs(divs, key);
    NoneMatching(divs, key);
  }

  lemma {:induction false} NoneMatching(divs: seq<Div>, key: string)
    requires forall d :: d in divs ==> key !in d.classes
    ensures Matching(divs, key) == []
    decreases |divs|
  {
    if divs != [] {
      assert divs[|divs| - 1] in divs;
      var front := divs[..|divs| - 1];
      assert forall d :: d in front ==> d in divs;
      NoneMatching(front, key);
    }
  }

  /** One more div extends the pairs of the divs before it. */
  lemma DivPairsStep(divs: seq<Div>, key: string, j: nat, acc: seq<(string, string)>)
    requires j < |divs| && DivPairs(divs[..j], key) == Some(acc)
    ensures key !in divs[j].classes ==> DivPairs(divs[..j + 1], key) == Some(acc)
    ensures key in divs[j].classes && LinkPairs(divs[j].links).None? ==> DivPairs(divs[..j + 1], key).None?
    ensures key in divs[j].classes && LinkPairs(divs[j].links).Some? ==> DivPairs(divs[..j + 1], key) == Some(acc + LinkPairs(divs[j].links).value)
  {
    assert divs[..j + 1][..j] == divs[..j];
  }

  /** What `get_distro_URLs` returns for the pairs the pages yield. */
  function UrlLists(pairs: Option<seq<(string, string)>>): Outcome<(seq<string>, seq<string>)> {
    match pairs
    case None => Thrown("TypeError")
    case Some(ps) => Normal((Firsts(ps), Seconds(ps)))
  }

  lemma {:induction false} LinkPairsNone(links: seq<Link>, k: nat)
    requires k <= |links| && LinkPairs(links[..k]).None?
    ensures LinkPairs(links).None?
    decreases |links| - k
  {
    if k < |links| {
      assert links[..k + 1][..k] == links[..k];
      LinkPairsNone(links, k + 1);
    } else {
      assert links[..k] == links;
    }
  }

  lemma {:induction false} DivPairsNone(divs: seq<Div>, key: string, k: nat)
    requires k <= |divs| && DivPairs(divs[..k], key).None?
    ensures DivPairs(divs, key).None?
    decreases |divs| - k
  {
    if k < |divs| {
      assert divs[..k + 1][..k] == divs[..k];
      DivPairsNone(divs, key, k + 1);
    } else {
      assert divs[..k] == divs;
    }
  }

  lemma {:induction false} PagePairsNone(pages: seq<seq<Div>>, key: string, k: nat)
    requires k <= |pages| && PagePairs(pages[..k], key).None?
    ensures PagePairs(pages, key).None?
    decreases |pages| - k
  {
    if k < |pages| {
      assert pages[..k + 1][..k] == pages[..k];
      PagePairsNone(pages, key, k + 1);
    } else {
      assert pages[..k] == pages;
    }
  }

  /** `ROSIndexTransformer`. */
  class IndexTransformer {
    const distroKey: string

    constructor (rosDistro: string)
      ensures distroKey == "distro-" + rosDistro
    {
      distroKey := "distro-" + rosDistro;
    }

    /** The links of one div, appended to both lists in lockstep. */
    method ScanLinks(links: seq<Link>, urls0: seq<string>, names0: seq<string>) returns (ok: bool, urls: seq<string>, names: seq<string>)
      ensures ok == LinkPairs(links).Some?
      ensures ok ==> urls == urls0 + Firsts(LinkPairs(links).value) && names == names0 + Seconds(LinkPairs(links).value)
    {
      urls, names := urls0, names0;
      ghost var acc: seq<(string, string)> := [];
      var k := 0;
      while k < |links|
        invariant 0 <= k <= |links|
        invariant LinkPairs(links[..k]) == Some(acc)
        invariant urls == urls0 + Firsts(acc) && names == names0 + Seconds(acc)
      {
        assert links[..k + 1][..k] == links[..k];
        var link := links[k];
        if link.href.None? {
          LinkPairsNone(links, k + 1);
          return false, urls, names;
        }
        var h := link.href.value;
        if Contains(h, RepoMarker) {
          urls := urls + [IndexHost + h];
          names := names + [link.text];
          acc := acc + [(IndexHost + h, link.text)];
        }
        k := k + 1;
      }
      assert links[..k] == links;
      ok := true;
    }

    /** The divs of one page: the links of every div whose class list holds
        the distribution's class. */
    method ScanPage(divs: seq<Div>, urls0: seq<string>, names0: seq<string>) returns (ok: bool, urls: seq<string>, names: seq<string>)
      ensures ok == DivPairs(divs, distroKey).Some?
      ensures ok ==> urls == urls0 + Firsts(DivPairs(divs, distroKey).value) && names == names0 + Seconds(DivPairs(divs, distroKey).value)
    {
      urls, names := urls0, names0;
      ghost var acc: seq<(string, string)> := [];
      var j := 0;
      while j < |divs|
        invariant 0 <= j <= |divs|
        invariant DivPairs(divs[..j], distroKey) == Some(acc)
        invariant urls == urls0 + Firsts(acc) && names == names0 + Seconds(acc)
      {
        var d := divs[j];
        DivPairsStep(divs, distroKey, j, acc);
        if distroKey in d.classes {
          var found;
          found, urls, names := ScanLinks(d.links, urls, names);
          if !found {
            DivPairsNone(divs, distroKey, j + 1);
            return false, urls, names;
          }
          ghost var more := LinkPairs(d.links).value;
          FirstsAppend(acc, more);
          acc := acc + more;
        }
        j := j + 1;
      }
      assert divs[..j] == divs;
      ok := true;
    }

    /** `get_distro_URLs`: for every page, every div whose class list holds
        `distro-<distribution>`, every link in it whose `href` holds `/r/`,
        append the absolute URL and the link text. */
    method GetDistroUrls(pages: seq<seq<Div>>) returns (r: Outcome<(seq<string>, seq<string>)>)
      ensures r == UrlLists(PagePairs(pages, distroKey))
      ensures r.Normal? ==> |r.value.0| == |r.value.1| && forall u :: u in r.value.0 ==> RepoUrl(u)
    {
      var urls: seq<string> := [];
      var names: seq<string> := [];
      ghost var pairs: seq<(string, string)> := [];
      var i := 0;
      while i < |pages|
        invariant 0 <= i <= |pages|
        invariant PagePairs(pages[..i], distroKey) == Some(pairs)
        invariant urls == Firsts(pairs) && names == Seconds(pairs)
      {
        assert pages[..i + 1][..i] == pages[..i];
        var ok;
        ok, urls, names := ScanPage(pages[i], urls, names);
        if !ok {
          PagePairsNone(pages, distroKey, i + 1);
          return Thrown("TypeError");
        }
        FirstsAppend(pairs, DivPairs(pages[i], distroKey).value);
        pairs := pairs + DivPairs(pages[i], distroKey).value;
        i := i + 1;
      }
      assert pages[..i] == pages;
      r := Normal((urls, names));
      PagePairsUrls(pages, distroKey);
      ProjectionsAt(pairs);
    }
  }

  lemma FirstsAppend(a: seq<(string, string)>, b: seq<(string, string)>)
    ensures Firsts(a + b) == Firsts(a) + Firsts(b) && Seconds(a + b) == Seconds(a) + Seconds(b)
  {
    ProjectionsAt(a);
    ProjectionsAt(b);
    ProjectionsAt(a + b);
  }
}
