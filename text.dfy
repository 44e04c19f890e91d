/** Option and outcome types shared by every module of the model. */
module Wrappers {
  datatype Option<+T> = None | Some(value: T)

  /** A call that either returns normally or raises an exception the
      source does not catch, named by its Python class. */
  datatype Outcome<+T> = Normal(value: T) | Thrown(exception: string)
}

/** Python string operations used by the source, on `seq<char>`. */
module Text {
  import opened Wrappers

  /** `pat` occurs in `s` starting at index `i`. */
  predicate OccursAt(s: string, pat: string, i: nat) {
    i + |pat| <= |s| && s[i..i + |pat|] == pat
  }

  lemma AppendAssoc<T>(a: seq<T>, b: seq<T>, c: seq<T>)
    ensures a + b + c == a + (b + c)
  {
  }

  /** Python's `pat in s`. */
  predicate Contains(s: string, pat: string) {
    exists i :: 0 <= i <= |s| - |pat| && OccursAt(s, pat, i)
  }

  /** Python's `s.find(pat, from)`: the first occurrence at or after `from`. */
  function Find(s: string, pat: string, from: nat): (r: Option<nat>)
    ensures r.Some? ==> from <= r.value && OccursAt(s, pat, r.value)
    ensures r.Some? ==> forall j :: from <= j < r.value ==> !OccursAt(s, pat, j)
    ensures r.None? ==> forall j :: from <= j ==> !OccursAt(s, pat, j)
    decreases |s| - from
  {
    if from + |pat| > |s| then None
    else if OccursAt(s, pat, from) then Some(from)
    else Find(s, pat, from + 1)
  }

  /** Concatenation of a sequence of sequences (`"".join(ss)` for strings). */
  function Concat<T>(ss: seq<seq<T>>): seq<T> {
    if ss == [] then [] else Concat(ss[..|ss| - 1]) + ss[|ss| - 1]
  }

  lemma ConcatStep<T>(ss: seq<seq<T>>, i: nat)
    requires i < |ss|
    ensures Concat(ss[..i + 1]) == Concat(ss[..i]) + ss[i]
  {
    assert ss[..i + 1][..i] == ss[..i];
  }

  /** Appending one more block appends its text. */
  lemma ConcatSnoc<T>(ss: seq<seq<T>>, x: seq<T>)
    ensures Concat(ss + [x]) == Concat(ss) + x
  {
    assert (ss + [x])[..|ss|] == ss;
  }

  lemma {:induction false} ConcatAppend<T>(a: seq<seq<T>>, b: seq<seq<T>>)
    ensures Concat(a + b) == Concat(a) + Concat(b)
    decreases |b|
  {
    if b == [] {
      assert a + b == a;
    } else {
      var b' := b[..|b| - 1];
      assert (a + b)[..|a + b| - 1] == a + b';
      ConcatAppend(a, b');
    }
  }

  lemma {:induction false} ConcatLength<T>(ss: seq<seq<T>>, lens: seq<nat>)
    requires |lens| == |ss| && forall i :: 0 <= i < |ss| ==> |ss[i]| == lens[i]
    ensures |Concat(ss)| == Sum(lens)
    decreases |ss|
  {
    if ss != [] {
      ConcatLength(ss[..|ss| - 1], lens[..|lens| - 1]);
    }
  }

  function Sum(xs: seq<nat>): nat {
    if xs == [] then 0 else Sum(xs[..|xs| - 1]) + xs[|xs| - 1]
  }

  /** Block `i` of `ss` sits in `Concat(ss)` right after the blocks before it. */
  lemma {:induction false} ConcatAt<T>(ss: seq<seq<T>>, i: nat)
    requires i < |ss|
    ensures Concat(ss) == Concat(ss[..i]) + ss[i] + Concat(ss[i + 1..])
  {
    var front := ss[..i + 1];
    assert ss == front + ss[i + 1..];
    ConcatAppend(front, ss[i + 1..]);
    ConcatStep(ss, i);
  }

  /** Block `i` occurs in `Concat(ss)` at the total length of the blocks before it. */
  lemma ConcatOccurs(ss: seq<string>, i: nat)
    requires i < |ss|
    ensures OccursAt(Concat(ss), ss[i], |Concat(ss[..i])|)
  {
    ConcatAt(ss, i);
    OccursInMiddle(Concat(ss[..i]), ss[i], Concat(ss[i + 1..]));
  }

  /** Block `i` ends before block `j` starts. */
  lemma ConcatBefore<T>(ss: seq<seq<T>>, i: nat, j: nat)
    requires i < j <= |ss|
    ensures |Concat(ss[..i])| + |ss[i]| <= |Concat(ss[..j])|
  {
    assert ss[..j] == ss[..i + 1] + ss[i + 1..j];
    ConcatAppend(ss[..i + 1], ss[i + 1..j]);
    ConcatStep(ss, i);
  }

  /** The text of each group of blocks. */
  function Joined<T>(gs: seq<seq<seq<T>>>): (r: seq<seq<T>>)
    ensures |r| == |gs| && forall i :: 0 <= i < |gs| ==> r[i] == Concat(gs[i])
  {
    if gs == [] then [] else Joined(gs[..|gs| - 1]) + [Concat(gs[|gs| - 1])]
  }

  /** Flattening the groups and then the blocks is joining each group and
      then the groups. */
  lemma {:induction false} ConcatConcat<T>(gs: seq<seq<seq<T>>>)
    ensures Concat(Concat(gs)) == Concat(Joined(gs))
    decreases |gs|
  {
    if gs != [] {
      var front := gs[..|gs| - 1];
      ConcatConcat(front);
      ConcatAppend(Concat(front), gs[|gs| - 1]);
      ConcatSnoc(Joined(front), Concat(gs[|gs| - 1]));
    }
  }

  lemma OccursInMiddle(a: string, m: string, c: string)
    ensures OccursAt(a + m + c, m, |a|)
  {
    assert (a + m + c)[|a|..|a| + |m|] == m;
  }

  /** Where the parts of `a + b + c + d` sit. */
  lemma Placed(a: string, b: string, c: string, d: string)
    ensures OccursAt(a + b + c + d, a, 0)
    ensures OccursAt(a + b + c + d, b, |a|)
    ensures OccursAt(a + b + c + d, d, |a + b + c|)
    ensures |c + d| <= |a + b + c + d| && OccursAt(a + b + c + d, c + d, |a + b + c + d| - |c + d|)
  {
    var t := a + b + c + d;
    assert t[..|a|] == a;
    assert t[|a|..|a| + |b|] == b;
    assert t[|a + b + c|..] == d;
    assert t == (a + b) + (c + d);
    assert t[|a + b|..] == c + d;
  }

  /** A slice of a slice is a slice of the original. */
  lemma SliceOfSlice<T>(s: seq<T>, a: nat, b: nat, i: nat, j: nat)
    requires a <= b <= |s| && i <= j <= b - a
    ensures s[a..b][i..j] == s[a + i..a + j]
  {
    var t := s[a..b];
    forall k | 0 <= k < j - i
      ensures t[i..j][k] == s[a + i..a + j][k]
    {
      assert t[i..j][k] == t[i + k] == s[a + i + k];
    }
  }

  /** `x` sits inside `s` at `p`, and `s` inside `t` at `q`: `x` sits in `t` at `q + p`. */
  lemma OccursAtTrans(t: string, s: string, x: string, q: nat, p: nat)
    requires OccursAt(t, s, q) && OccursAt(s, x, p)
    ensures OccursAt(t, x, q + p)
  {
    forall k | 0 <= k < |x|
      ensures t[q + p + k] == x[k]
    {
      assert s[p..p + |x|][k] == x[k];
      assert t[q..q + |s|][p + k] == s[p + k];
    }
  }

  /** Python's `sep.join(ss)`. */
  function JoinWith(ss: seq<string>, sep: string): string {
    if |ss| == 0 then ""
    else if |ss| == 1 then ss[0]
    else ss[0] + sep + JoinWith(ss[1..], sep)
  }

  /** Python's `s.split(sep)` for a non-empty separator: scans left to right
      and cuts at every non-overlapping occurrence. */
  function Split(s: string, sep: string): (r: seq<string>)
    requires sep != []
    ensures |r| >= 1
    decreases |s|
  {
    if |s| < |sep| then [s]
    else if s[..|sep|] == sep then [""] + Split(s[|sep|..], sep)
    else
      var rest := Split(s[1..], sep);
      [[s[0]] + rest[0]] + rest[1..]
  }

  function First(ss: seq<string>): string requires ss != [] { ss[0] }
  function Last(ss: seq<string>): string requires ss != [] { ss[|ss| - 1] }

  /** Joining the pieces of a split with the separator gives the text back. */
  lemma {:induction false} SplitJoin(s: string, sep: string)
    requires sep != []
    ensures JoinWith(Split(s, sep), sep) == s
    decreases |s|
  {
    if |s| < |sep| {
    } else if s[..|sep|] == sep {
      var rest := Split(s[|sep|..], sep);
      assert Split(s, sep) == [""] + rest;
      SplitJoin(s[|sep|..], sep);
      JoinConsEmpty(rest, sep);
      assert s == sep + s[|sep|..];
    } else {
      var rest := Split(s[1..], sep);
      assert Split(s, sep) == [[s[0]] + rest[0]] + rest[1..];
      SplitJoin(s[1..], sep);
      JoinConsHead(s[0], rest, sep);
      assert s == [s[0]] + s[1..];
    }
  }

  /** An empty first piece leaves only the separator in front. */
  lemma JoinConsEmpty(pieces: seq<string>, sep: string)
    requires pieces != []
    ensures JoinWith([""] + pieces, sep) == sep + JoinWith(pieces, sep)
  {
    assert ([""] + pieces)[1..] == pieces;
  }

  /** Gluing a character to the first piece glues it to the joined text. */
  lemma JoinConsHead(c: char, pieces: seq<string>, sep: string)
    requires pieces != []
    ensures JoinWith([[c] + pieces[0]] + pieces[1..], sep) == [c] + JoinWith(pieces, sep)
  {
    var r := [[c] + pieces[0]] + pieces[1..];
    assert r[0] == [c] + pieces[0] && r[1..] == pieces[1..];
    if |pieces| > 1 {
      AppendAssoc([c], pieces[0], sep + JoinWith(pieces[1..], sep));
      AppendAssoc(pieces[0], sep, JoinWith(pieces[1..], sep));
      AppendAssoc([c] + pieces[0], sep, JoinWith(pieces[1..], sep));
    }
  }

  /** One more piece at the end adds the separator and that piece. */
  lemma {:induction false} JoinSnoc(ss: seq<string>, x: string, sep: string)
    requires ss != []
    ensures JoinWith(ss + [x], sep) == JoinWith(ss, sep) + sep + x
    decreases |ss|
  {
    assert (ss + [x])[0] == ss[0] && (ss + [x])[1..] == ss[1..] + [x];
    if |ss| > 1 {
      JoinSnoc(ss[1..], x, sep);
    }
  }

  /** A text that does not contain the separator is not cut at all. */
  lemma {:induction false} SplitWithout(s: string, sep: string)
    requires sep != [] && !Contains(s, sep)
    ensures Split(s, sep) == [s]
    decreases |s|
  {
    if |s| >= |sep| {
      assert !OccursAt(s, sep, 0);
      assert !Contains(s[1..], sep) by {
        forall i | 0 <= i <= |s[1..]| - |sep|
          ensures !OccursAt(s[1..], sep, i)
        {
          assert s[1..][i..i + |sep|] == s[i + 1..i + 1 + |sep|];
          assert !OccursAt(s, sep, i + 1);
        }
      }
      SplitWithout(s[1..], sep);
      assert s == [s[0]] + s[1..];
    }
  }

  /** Python's `s.replace(pat, rep)`: left to right, non-overlapping. */
  function ReplaceAll(s: string, pat: string, rep: string): string
    requires pat != []
    decreases |s|
  {
    if |s| < |pat| then s
    else if s[..|pat|] == pat then rep + ReplaceAll(s[|pat|..], pat, rep)
    else [s[0]] + ReplaceAll(s[1..], pat, rep)
  }

  /** Replacing a one-character pattern by text without that character
      leaves no occurrence of it. */
  lemma {:induction false} ReplaceAllRemoves(s: string, c: char, rep: string)
    requires c !in rep
    ensures c !in ReplaceAll(s, [c], rep)
    decreases |s|
  {
    if |s| >= 1 {
      ReplaceAllRemoves(s[1..], c, rep);
    }
  }

  /** A character absent from the text and from the replacement stays absent. */
  lemma {:induction false} ReplaceAllKeepsAbsent(s: string, pat: string, rep: string, c: char)
    requires pat != [] && c !in s && c !in rep
    ensures c !in ReplaceAll(s, pat, rep)
    decreases |s|
  {
    if |s| >= |pat| {
      if s[..|pat|] == pat {
        ReplaceAllKeepsAbsent(s[|pat|..], pat, rep, c);
      } else {
        ReplaceAllKeepsAbsent(s[1..], pat, rep, c);
      }
    }
  }

  /** A replacement no longer than its pattern never lengthens the text. */
  lemma {:induction false} ReplaceAllNoLonger(s: string, pat: string, rep: string)
    requires pat != [] && |rep| <= |pat|
    ensures |ReplaceAll(s, pat, rep)| <= |s|
    decreases |s|
  {
    if |s| >= |pat| {
      if s[..|pat|] == pat {
        ReplaceAllNoLonger(s[|pat|..], pat, rep);
      } else {
        ReplaceAllNoLonger(s[1..], pat, rep);
      }
    }
  }

  /** A character that occurs neither in the pattern nor in the replacement
      keeps its number of occurrences. */
  lemma {:induction false} ReplaceAllKeepsCount(s: string, pat: string, rep: string, c: char)
    requires pat != [] && c !in pat && c !in rep
    ensures multiset(ReplaceAll(s, pat, rep))[c] == multiset(s)[c]
    decreases |s|
  {
    if |s| >= |pat| {
      if s[..|pat|] == pat {
        ReplaceAllKeepsCount(s[|pat|..], pat, rep, c);
        assert s == s[..|pat|] + s[|pat|..];
        assert multiset(s) == multiset(pat) + multiset(s[|pat|..]);
      } else {
        ReplaceAllKeepsCount(s[1..], pat, rep, c);
        assert s == [s[0]] + s[1..];
        assert multiset(s) == multiset([s[0]]) + multiset(s[1..]);
      }
    }
  }

  /** Replacing character `c` by character `d` moves every `c` onto `d`. */
  lemma {:induction false} ReplaceCharCount(s: string, c: char, d: char)
    requires c != d
    ensures multiset(ReplaceAll(s, [c], [d]))[d] == multiset(s)[d] + multiset(s)[c]
    ensures multiset(ReplaceAll(s, [c], [d]))[c] == 0
    decreases |s|
  {
    if |s| >= 1 {
      ReplaceCharCount(s[1..], c, d);
      assert s == [s[0]] + s[1..];
      assert multiset(s) == multiset([s[0]]) + multiset(s[1..]);
    }
  }

  /** `s` with every character of `cs` deleted, the rest kept in order. */
  function Strip(s: string, cs: set<char>): string {
    if s == [] then [] else (if s[0] in cs then [] else [s[0]]) + Strip(s[1..], cs)
  }

  /** Replacing a character by the empty string deletes exactly that character. */
  lemma {:induction false} ReplaceAllDeletes(s: string, c: char)
    ensures ReplaceAll(s, [c], "") == Strip(s, {c})
    decreases |s|
  {
    if |s| >= 1 {
      ReplaceAllDeletes(s[1..], c);
    }
  }

  /** Deleting one set of characters and then another deletes their union. */
  lemma {:induction false} StripStrip(s: string, a: set<char>, b: set<char>)
    ensures Strip(Strip(s, a), b) == Strip(s, a + b)
    decreases |s|
  {
    if s != [] {
      StripStrip(s[1..], a, b);
      var head := if s[0] in a then [] else [s[0]];
      StripConcat(head, Strip(s[1..], a), b);
      if s[0] !in a {
        assert Strip(head, b) == if s[0] in b then [] else [s[0]] by {
          assert head[1..] == [];
        }
      }
    }
  }

  lemma {:induction false} StripConcat(x: string, y: string, cs: set<char>)
    ensures Strip(x + y, cs) == Strip(x, cs) + Strip(y, cs)
    decreases |x|
  {
    if x != [] {
      assert (x + y)[1..] == x[1..] + y;
      StripConcat(x[1..], y, cs);
    } else {
      assert x + y == y;
    }
  }

  /** Nothing of `cs` is left after `Strip`, and nothing else is lost. */
  lemma {:induction false} StripContents(s: string, cs: set<char>)
    ensures forall c :: c in cs ==> c !in Strip(s, cs)
    ensures forall c :: c !in cs ==> multiset(Strip(s, cs))[c] == multiset(s)[c]
    decreases |s|
  {
    if s != [] {
      StripContents(s[1..], cs);
      assert s == [s[0]] + s[1..];
      assert multiset(s) == multiset([s[0]]) + multiset(s[1..]);
    }
  }
}
