/** The single-token command-line flags built by concatenating an option with a path. */
module Flags {
  import opened Outcomes
  import opened Paths

  /** The clang option that overrides a module map; the path follows with no separator. */
  const ModuleMapOption: string := "-fmodule-map-file="

  /** The flag that passes the next token through to clang. */
  const Xcc: string := "-Xcc"

  /** The option that adds a library search directory; the directory is the next token. */
  const LibrarySearchOpt: string := "-L"

  /** The flag that links a library; the path follows with no separator. */
  const LinkOption: string := "-l"

  predicate IsModuleMapFlag(tok: string) {
    ModuleMapOption <= tok
  }

  /** `-fmodule-map-file=<path>` as one token: a module-map flag, never `-Xcc`,
      from which the path of a valid module map reads back intact. */
  function ModuleMapFlag(p: Path): (tok: string)
    ensures IsModuleMapFlag(tok) && tok != Xcc
    ensures ValidPath(p) ==> ModuleMapFlagPath(tok) == Some(p)
  {
    var tok := ModuleMapOption + Text(p);
    assert tok[|ModuleMapOption|..] == Text(p);
    assert tok[1] == 'f' && Xcc[1] == 'X';
    if ValidPath(p) then ParseText(p); tok else tok
  }

  /** Reads the module-map path back from a token, if it is a module-map flag. */
  function ModuleMapFlagPath(tok: string): (r: Option<Path>)
    ensures r.Some? <==> IsModuleMapFlag(tok)
  {
    if IsModuleMapFlag(tok) then Some(Parse(tok[|ModuleMapOption|..])) else None
  }

  /** Module-map flags of distinct valid paths are distinct tokens. */
  lemma ModuleMapFlagInjective(p: Path, q: Path)
    requires ValidPath(p) && ValidPath(q)
    ensures ModuleMapFlag(p) == ModuleMapFlag(q) <==> p == q
  {
    assert ModuleMapFlagPath(ModuleMapFlag(p)) == Some(p);
    assert ModuleMapFlagPath(ModuleMapFlag(q)) == Some(q);
  }

  /** The definition of `-l<path>`: the option and the path text as one
      token. `LinkFlagInjective` states what a caller may rely on. */
  function LinkFlag(p: Path): (tok: string)
    ensures LinkOption <= tok
    ensures tok[|LinkOption|..] == Text(p)
  {
    LinkOption + Text(p)
  }

  /** Link flags of distinct valid paths are distinct tokens. */
  lemma LinkFlagInjective(p: Path, q: Path)
    requires ValidPath(p) && ValidPath(q)
    ensures LinkFlag(p) == LinkFlag(q) <==> p == q
  {
    TextInjective(p, q);
    if LinkFlag(p) == LinkFlag(q) {
      assert Text(p) == LinkFlag(p)[|LinkOption|..];
    }
  }

  /** The three kinds of flag token never coincide: a link flag is neither a
      module-map flag nor `-Xcc`, and `-Xcc` is not a module-map flag. */
  lemma FlagKindsDiffer(p: Path, q: Path)
    ensures !IsModuleMapFlag(Xcc)
    ensures !IsModuleMapFlag(LinkFlag(q))
    ensures LinkFlag(q) != Xcc
    ensures ModuleMapFlag(p) != Xcc
  {
    assert LinkFlag(q)[1] == 'l';
    assert Xcc[1] == 'X';
    assert ModuleMapOption[1] == 'f';
  }
}
