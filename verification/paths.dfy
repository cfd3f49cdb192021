/** Paths as sequences of components, standing in for `PathBuf`, and their
    rendering as the text handed to a subprocess (`OsString`). */
module Paths {
  import opened Outcomes

  /** A path: whether it starts at the root, and its components in order. */
  datatype Path = Path(absolute: bool, comps: seq<string>)

  /** A component as `read_dir` or a `format!` of a separator-free namespace yields it. */
  predicate ValidComponent(c: string) {
    |c| > 0 && '/' !in c
  }

  predicate ValidPath(p: Path) {
    forall i :: 0 <= i < |p.comps| ==> ValidComponent(p.comps[i])
  }

  /** The directory holding `p`; the root (or the empty relative path) is its own parent. */
  function Parent(p: Path): Path {
    if |p.comps| == 0 then p else Path(p.absolute, p.comps[..|p.comps| - 1])
  }

  /** The last component of `p`, if any. */
  function FileName(p: Path): Option<string> {
    if |p.comps| == 0 then None else Some(p.comps[|p.comps| - 1])
  }

  /** `PathBuf::push` of a single relative component: it becomes the new last
      component, and `Parent`/`FileName` take the push apart again. */
  function Push(p: Path, c: string): (r: Path)
    ensures Parent(r) == p
    ensures FileName(r) == Some(c)
    ensures |r.comps| == |p.comps| + 1
    ensures ValidPath(p) && ValidComponent(c) ==> ValidPath(r)
  {
    Path(p.absolute, p.comps + [c])
  }

  /** Components joined by '/'. */
  function Join(cs: seq<string>): string {
    if |cs| == 0 then ""
    else if |cs| == 1 then cs[0]
    else cs[0] + "/" + Join(cs[1..])
  }

  /** The text of a path as the operating system receives it. */
  function Text(p: Path): string {
    (if p.absolute then "/" else "") + Join(p.comps)
  }

  /** The length of the leading run of `s` that holds no separator. */
  function SegmentLength(s: string): (n: nat)
    ensures n <= |s|
    ensures forall i :: 0 <= i < n ==> s[i] != '/'
    ensures n < |s| ==> s[n] == '/'
  {
    if |s| == 0 || s[0] == '/' then 0 else 1 + SegmentLength(s[1..])
  }

  /** The non-empty '/'-separated segments of `s`, in order. */
  function Split(s: string): (cs: seq<string>)
    ensures forall i :: 0 <= i < |cs| ==> ValidComponent(cs[i])
    decreases |s|
  {
    if |s| == 0 then []
    else if s[0] == '/' then Split(s[1..])
    else
      var n := SegmentLength(s);
      [s[..n]] + Split(s[n..])
  }

  /** Reads a path back from its text. */
  function Parse(s: string): Path {
    if |s| > 0 && s[0] == '/' then Path(true, Split(s[1..])) else Path(false, Split(s))
  }

  /** Splitting the join of valid components gives the components back. */
  lemma {:induction false} SplitJoin(cs: seq<string>)
    requires forall i :: 0 <= i < |cs| ==> ValidComponent(cs[i])
    ensures Split(Join(cs)) == cs
    decreases |cs|
  {
    if |cs| == 0 {
    } else if |cs| == 1 {
      var c := cs[0];
      assert Join(cs) == c;
      var n := SegmentLength(c);
      assert n == |c|;
      assert c[..n] == c;
      assert c[n..] == [];
    } else {
      var c := cs[0];
      var j := Join(cs[1..]);
      var s := c + "/" + j;
      assert Join(cs) == s;
      assert s[0] == c[0];
      var n := SegmentLength(s);
      assert s[|c|] == '/';
      assert n == |c| by {
        assert forall i :: 0 <= i < |c| ==> s[i] == c[i];
      }
      assert s[..n] == c;
      assert s[n..] == "/" + j;
      assert ("/" + j)[1..] == j;
      SplitJoin(cs[1..]);
    }
  }

  /** Reading back the text of a path whose components are valid gives the path:
      the rendering loses nothing. */
  lemma ParseText(p: Path)
    requires ValidPath(p)
    ensures Parse(Text(p)) == p
  {
    SplitJoin(p.comps);
    var j := Join(p.comps);
    if p.absolute {
      assert Text(p) == "/" + j;
      assert ("/" + j)[1..] == j;
    } else {
      assert Text(p) == j;
      if |p.comps| > 0 {
        assert |p.comps[0]| > 0;
        if |p.comps| == 1 {
          assert j == p.comps[0];
        } else {
          assert j == p.comps[0] + "/" + Join(p.comps[1..]);
        }
        assert j[0] == p.comps[0][0];
        assert p.comps[0][0] != '/';
      }
    }
  }

  /** Distinct valid paths have distinct texts. */
  lemma TextInjective(p: Path, q: Path)
    requires ValidPath(p) && ValidPath(q)
    ensures Text(p) == Text(q) <==> p == q
  {
    ParseText(p);
    ParseText(q);
  }

  /** The index of the last `c` in `s`, or -1 when `s` holds none. */
  function LastIndex(s: string, c: char): (k: int)
    ensures -1 <= k < |s|
    ensures k >= 0 ==> s[k] == c
    ensures forall i :: k < i < |s| ==> s[i] != c
  {
    if |s| == 0 then -1
    else if s[|s| - 1] == c then |s| - 1
    else LastIndex(s[..|s| - 1], c)
  }

  /** `Path::extension` of a file name: the text after its last '.', and none
      when there is no '.' or the only one is the leading character. */
  function Extension(name: string): (r: Option<string>)
    ensures r.Some? <==> exists k :: 0 < k < |name| && name[k] == '.'
    ensures r.Some? ==>
      && '.' !in r.value
      && |r.value| + 2 <= |name|
      && name[|name| - |r.value| - 1] == '.'
      && name[|name| - |r.value|..] == r.value
  {
    var k := LastIndex(name, '.');
    if k <= 0 then None else Some(name[k + 1..])
  }

  /** A non-empty stem followed by '.' and a dot-free suffix has that suffix as extension. */
  lemma ExtensionOfName(stem: string, ext: string)
    requires |stem| > 0
    requires '.' !in ext
    ensures Extension(stem + "." + ext) == Some(ext)
  {
    var name := stem + "." + ext;
    assert name[|stem|] == '.';
    var k := LastIndex(name, '.');
    assert k == |stem| by {
      assert forall i :: |stem| < i < |name| ==> name[i] == ext[i - |stem| - 1];
    }
    assert name[k + 1..] == ext;
  }

  /** `name` is a non-empty stem, a '.', then `ext`. */
  predicate EndsWithExtension(name: string, ext: string) {
    |name| > |ext| + 1 && name[|name| - |ext| - 1..] == "." + ext
  }

  /** For a dot-free suffix, `Extension` reports it exactly when the name ends
      with '.' and that suffix after a non-empty stem. */
  lemma ExtensionIs(name: string, ext: string)
    requires '.' !in ext
    ensures Extension(name) == Some(ext) <==> EndsWithExtension(name, ext)
  {
    if EndsWithExtension(name, ext) {
      var stem := name[..|name| - |ext| - 1];
      assert name == stem + "." + ext;
      ExtensionOfName(stem, ext);
    }
    if Extension(name) == Some(ext) {
      var k := |name| - |ext| - 1;
      assert name[k..] == "." + ext by {
        assert name[k + 1..] == ext;
      }
    }
  }
}
