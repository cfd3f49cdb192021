/** `run_script`: the `swift` interpreter invocation that loads whatever
    modules and libraries sit in the output directory. */
module Interpreter {
  import opened Outcomes
  import opened Paths
  import opened Layout
  import opened Flags
  import opened Process

  const SwiftProgram: string := "swift"

  /** The option that adds a module search directory; the directory is the next token. */
  const IncludeOpt: string := "-I"

  /** Extension of a shared object on platforms other than Apple's. */
  const SharedObjectExtension: string := "so"

  /** What an entry of the output directory is taken to be. */
  datatype EntryKind = ModuleDirEntry | LibraryEntry | OtherEntry

  /** Classification by the extension of the entry's name: a module directory,
      a dynamic library (`dylib` or `so`), or anything else. */
  function Classify(name: string): (k: EntryKind)
    ensures k == ModuleDirEntry <==> EndsWithExtension(name, ModuleDirExtension)
    ensures k == LibraryEntry <==>
      EndsWithExtension(name, DylibExtension) || EndsWithExtension(name, SharedObjectExtension)
  {
    ExtensionIs(name, ModuleDirExtension);
    ExtensionIs(name, DylibExtension);
    ExtensionIs(name, SharedObjectExtension);
    match Extension(name)
    case Some(ext) =>
      if ext == ModuleDirExtension then ModuleDirEntry
      else if ext == DylibExtension || ext == SharedObjectExtension then LibraryEntry
      else OtherEntry
    case None => OtherEntry
  }

  /** The entries of `names` of kind `k`, in listing order. */
  function OfKind(names: seq<string>, k: EntryKind): (r: seq<string>)
    ensures |r| <= |names|
    ensures forall x :: x in r <==> x in names && Classify(x) == k
  {
    if names == [] then []
    else (if Classify(names[0]) == k then [names[0]] else []) + OfKind(names[1..], k)
  }

  /** Every `-Xcc` is followed by a module-map flag, and every module-map
      flag is preceded by `-Xcc`. */
  predicate XccPaired(r: seq<string>) {
    && (forall i :: 0 <= i < |r| && r[i] == Xcc ==> i + 1 < |r| && IsModuleMapFlag(r[i + 1]))
    && (forall i :: 0 <= i < |r| && IsModuleMapFlag(r[i]) ==> 0 < i && r[i - 1] == Xcc)
  }

  /** Pairing survives concatenation: neither part ends in `-Xcc` nor starts
      with a module-map flag. */
  lemma XccPairedAppend(a: seq<string>, b: seq<string>)
    requires XccPaired(a) && XccPaired(b)
    ensures XccPaired(a + b)
  {
    var r := a + b;
    forall i | 0 <= i < |r| && r[i] == Xcc
      ensures i + 1 < |r| && IsModuleMapFlag(r[i + 1])
    {
      if i < |a| {
        assert a[i] == Xcc;
      } else {
        assert b[i - |a|] == Xcc;
      }
    }
    forall i | 0 <= i < |r| && IsModuleMapFlag(r[i])
      ensures 0 < i && r[i - 1] == Xcc
    {
      if i < |a| {
        assert IsModuleMapFlag(a[i]);
      } else {
        assert IsModuleMapFlag(b[i - |a|]);
      }
    }
  }

  /** The module map inside the entry `name` of `dir`. */
  function ModuleMapOf(dir: Path, name: string): (p: Path)
    ensures Parent(Parent(p)) == dir && Parent(p) == Push(dir, name)
    ensures FileName(p) == Some(ModuleMapFileName)
  {
    Push(Push(dir, name), ModuleMapFileName)
  }

  /** The tokens one directory entry contributes. */
  function EntryFlags(dir: Path, name: string): (r: seq<string>)
    ensures EndsWithExtension(name, ModuleDirExtension) ==>
      r == [Xcc, ModuleMapFlag(ModuleMapOf(dir, name))]
    ensures EndsWithExtension(name, DylibExtension) || EndsWithExtension(name, SharedObjectExtension) ==>
      r == [LinkFlag(Push(dir, name))]
    ensures Classify(name) == OtherEntry ==> r == []
    ensures XccPaired(r)
  {
    FlagKindsDiffer(ModuleMapOf(dir, name), Push(dir, name));
    match Classify(name)
    case ModuleDirEntry => [Xcc, ModuleMapFlag(ModuleMapOf(dir, name))]
    case LibraryEntry => [LinkFlag(Push(dir, name))]
    case OtherEntry => []
  }

  /** The tokens of all listed entries, in listing order: two per module
      directory, one per library, and every module-map flag right after `-Xcc`. */
  function EntryArgs(dir: Path, names: seq<string>): (r: seq<string>)
    ensures |r| == 2 * |OfKind(names, ModuleDirEntry)| + |OfKind(names, LibraryEntry)|
    ensures XccPaired(r)
  {
    if names == [] then []
    else
      var rest := EntryArgs(dir, names[1..]);
      XccPairedAppend(EntryFlags(dir, names[0]), rest);
      EntryFlags(dir, names[0]) + rest
  }

  /** The script argument, if any. */
  function ScriptArgs(script: Option<Path>): (r: seq<string>)
    ensures |r| <= 1
  {
    match script
    case None => []
    case Some(s) => [Text(s)]
  }

  /** The `swift` argument vector. */
  function InterpreterArgs(outDir: Option<Path>, names: seq<string>, script: Option<Path>): (r: seq<string>)
    ensures |r| ==
      (if outDir.Some? then 4 + 2 * |OfKind(names, ModuleDirEntry)| + |OfKind(names, LibraryEntry)| else 0)
      + (if script.Some? then 1 else 0)
    ensures outDir.None? && script.None? ==> r == []
    ensures outDir.None? && script.Some? ==> r == [Text(script.value)]
    ensures outDir.Some? ==>
      && r[..4] == [IncludeOpt, Text(outDir.value), LibrarySearchOpt, Text(outDir.value)]
      && r[4..|r| - |ScriptArgs(script)|] == EntryArgs(outDir.value, names)
    ensures script.Some? ==> r[|r| - 1] == Text(script.value)
  {
    match outDir
    case None => ScriptArgs(script)
    case Some(d) =>
      var head := [IncludeOpt, Text(d), LibrarySearchOpt, Text(d)];
      var entries := EntryArgs(d, names);
      var r := head + entries + ScriptArgs(script);
      assert r[..4] == head;
      assert r[4..|r| - |ScriptArgs(script)|] == entries;
      r
  }

  /** One item of a directory listing: a named entry, or one the operating
      system failed to read. */
  datatype DirEntry = Entry(name: string) | BrokenEntry

  /** The result of reading the output directory. */
  datatype Listing = Unreadable | Listed(entries: seq<DirEntry>)

  /** The names of the entries, or none when any of them could not be read. */
  function EntryNames(entries: seq<DirEntry>): (r: Option<seq<string>>)
    ensures r.Some? <==> forall i :: 0 <= i < |entries| ==> entries[i].Entry?
    ensures r.Some? ==>
      |r.value| == |entries| && forall i :: 0 <= i < |entries| ==> r.value[i] == entries[i].name
  {
    if entries == [] then Some([])
    else match (entries[0], EntryNames(entries[1..]))
      case (Entry(n), Some(rest)) => Some([n] + rest)
      case _ => None
  }

  /** The names of a listing, or none when it failed. */
  function ListedNames(listing: Listing): (r: Option<seq<string>>)
    ensures r.Some? <==> listing.Listed? && EntryNames(listing.entries).Some?
  {
    match listing
    case Unreadable => None
    case Listed(entries) => EntryNames(entries)
  }

  /** `run_script`: with an output directory it lists that directory first,
      and a failure to read the listing or any entry of it is an I/O error
      before anything is spawned; otherwise it runs `swift` and succeeds
      exactly when `swift` exits successfully. */
  function RunScript(outDir: Option<Path>, listing: Listing, script: Option<Path>, outcome: ProcessOutcome): (r: Launch)
    ensures r.command.None? <==> outDir.Some? && ListedNames(listing).None?
    ensures r.command.None? ==> r.status == Failed(IoError)
    ensures outDir.None? ==> r.command == Some(Command(SwiftProgram, ScriptArgs(script)))
    ensures outDir.Some? && ListedNames(listing).Some? ==>
      r.command == Some(Command(SwiftProgram, InterpreterArgs(outDir, ListedNames(listing).value, script)))
    ensures r.command.Some? ==> (r.status.Done? <==> outcome == Exited(true))
    ensures r.command.Some? && outcome == Exited(false) ==> r.status == Failed(ToolFailed(SwiftProgram))
    ensures r.command.Some? && outcome == SpawnFailed ==> r.status == Failed(IoError)
  {
    match outDir
    case None => Spawn(Command(SwiftProgram, InterpreterArgs(None, [], script)), outcome)
    case Some(_) =>
      match ListedNames(listing)
      case None => Launch(None, Failed(IoError))
      case Some(names) => Spawn(Command(SwiftProgram, InterpreterArgs(outDir, names, script)), outcome)
  }

  /** The entries of a listing contribute in listing order: the tokens of a
      concatenated listing are the concatenated tokens. */
  lemma {:induction false} EntryArgsAppend(dir: Path, a: seq<string>, b: seq<string>)
    ensures EntryArgs(dir, a + b) == EntryArgs(dir, a) + EntryArgs(dir, b)
  {
    if a != [] {
      assert (a + b)[0] == a[0] && (a + b)[1..] == a[1..] + b;
      EntryArgsAppend(dir, a[1..], b);
      var f := EntryFlags(dir, a[0]);
      assert EntryArgs(dir, a + b) == f + EntryArgs(dir, a[1..] + b);
      assert EntryArgs(dir, a) == f + EntryArgs(dir, a[1..]);
    } else {
      assert a + b == b;
    }
  }

  /** A token is among the tokens of a non-empty listing exactly when it is
      among those of its first entry or of the rest. */
  lemma EntryArgsCons(dir: Path, names: seq<string>, tok: string)
    requires names != []
    ensures tok in EntryArgs(dir, names) <==> tok in EntryFlags(dir, names[0]) || tok in EntryArgs(dir, names[1..])
    ensures forall x :: x in names <==> x == names[0] || x in names[1..]
  {
    assert names == [names[0]] + names[1..];
  }

  /** The module-map flag of `name` is among the tokens of entry `n` exactly
      when `n` is `name` and a module directory. */
  lemma ModuleMapInFlags(dir: Path, n: string, name: string)
    requires ValidPath(dir) && ValidComponent(name) && ValidComponent(n)
    ensures ModuleMapFlag(ModuleMapOf(dir, name)) in EntryFlags(dir, n)
      <==> n == name && Classify(n) == ModuleDirEntry
  {
    var p := ModuleMapOf(dir, name);
    var q := ModuleMapOf(dir, n);
    ModuleMapFileNameValid();
    ModuleMapFlagInjective(p, q);
    FlagKindsDiffer(p, Push(dir, n));
  }

  /** The link flag of `name` is among the tokens of entry `n` exactly when
      `n` is `name` and a library. */
  lemma LinkInFlags(dir: Path, n: string, name: string)
    requires ValidPath(dir) && ValidComponent(name) && ValidComponent(n)
    ensures LinkFlag(Push(dir, name)) in EntryFlags(dir, n)
      <==> n == name && Classify(n) == LibraryEntry
  {
    var p := Push(dir, name);
    LinkFlagInjective(p, Push(dir, n));
    FlagKindsDiffer(ModuleMapOf(dir, n), p);
  }

  /** The module map of an entry is passed to `swift` exactly when that entry
      is listed and is a module directory. */
  lemma {:induction false} ModuleMapListed(dir: Path, names: seq<string>, name: string)
    requires ValidPath(dir) && ValidComponent(name)
    requires forall i :: 0 <= i < |names| ==> ValidComponent(names[i])
    ensures ModuleMapFlag(ModuleMapOf(dir, name)) in EntryArgs(dir, names)
      <==> name in names && Classify(name) == ModuleDirEntry
  {
    if names != [] {
      ModuleMapListed(dir, names[1..], name);
      ModuleMapInFlags(dir, names[0], name);
      EntryArgsCons(dir, names, ModuleMapFlag(ModuleMapOf(dir, name)));
    }
  }

  /** An entry is linked exactly when it is listed and is a library. */
  lemma {:induction false} LibraryListed(dir: Path, names: seq<string>, name: string)
    requires ValidPath(dir) && ValidComponent(name)
    requires forall i :: 0 <= i < |names| ==> ValidComponent(names[i])
    ensures LinkFlag(Push(dir, name)) in EntryArgs(dir, names)
      <==> name in names && Classify(name) == LibraryEntry
  {
    if names != [] {
      LibraryListed(dir, names[1..], name);
      LinkInFlags(dir, names[0], name);
      EntryArgsCons(dir, names, LinkFlag(Push(dir, name)));
    }
  }
}
