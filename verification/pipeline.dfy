/** How the three operations fit together: what `write_bindings` and
    `compile_bindings` leave in the output directory is what `run_script`
    picks up from it. */
module Pipeline {
  import opened Paths
  import opened Layout
  import opened Flags
  import opened Compiler
  import opened Interpreter

  /** The module directory of a non-empty namespace is recognised as one. */
  lemma ModuleDirRecognised(ns: string)
    requires |ns| > 0
    ensures Classify(ModuleDirName(ns)) == ModuleDirEntry
  {
    var name := ModuleDirName(ns);
    assert name[|ns|..] == "." + ModuleDirExtension;
  }

  /** With an empty namespace the module directory is `.swiftmodule-dir`,
      a name whose only '.' is its first character: it has no extension,
      so `run_script` skips it. */
  lemma EmptyNamespaceModuleDirSkipped()
    ensures Classify(ModuleDirName("")) == OtherEntry
  {
    var name := ModuleDirName("");
    assert |name| == |ModuleDirExtension| + 1;
    assert name[|name| - 1] == 'r';
  }

  /** The library `swiftc` emits is recognised as a library. */
  lemma LibraryRecognised(ns: string)
    ensures Classify(LibraryFileName(ns)) == LibraryEntry
  {
    var name := LibraryFileName(ns);
    assert name[|name| - |DylibExtension| - 1..] == "." + DylibExtension;
  }

  /** The generated source next to the module directory is neither a module
      directory nor a library, so `run_script` passes nothing for it. */
  lemma SourceSkipped(ns: string)
    ensures Classify(SourceFileName(ns)) == OtherEntry
  {
    var name := SourceFileName(ns);
    assert name[|name| - 1] == 't';
    assert ModuleDirExtension[|ModuleDirExtension| - 1] == 'r';
    assert DylibExtension[|DylibExtension| - 1] == 'b';
    assert SharedObjectExtension[|SharedObjectExtension| - 1] == 'o';
  }

  /** The `-Xcc` and module-map tokens of the compiler's argument vector. */
  lemma CompilerModuleMapTokens(out: Path, ns: string)
    ensures CompilerArgs(out, ns)[12..14] == [Xcc, ModuleMapFlag(ModuleMapOf(out, ModuleDirName(ns)))]
  {
  }

  /** The tokens of a one-entry listing are that entry's tokens. */
  lemma SingleEntry(dir: Path, n: string)
    ensures EntryArgs(dir, [n]) == EntryFlags(dir, n)
  {
    assert [n][1..] == [];
  }

  /** Listing what `write_bindings` puts directly in the output directory (the
      module directory and the source, in either order) makes `run_script`
      pass exactly the `-Xcc` and module-map tokens `compile_bindings` passes. */
  lemma WrittenOutputLoadsLikeCompiler(out: Path, ns: string)
    requires |ns| > 0
    ensures EntryArgs(out, [ModuleDirName(ns), SourceFileName(ns)]) == CompilerArgs(out, ns)[12..14]
    ensures EntryArgs(out, [SourceFileName(ns), ModuleDirName(ns)]) == CompilerArgs(out, ns)[12..14]
  {
    ModuleDirRecognised(ns);
    SourceSkipped(ns);
    CompilerModuleMapTokens(out, ns);
    SingleEntry(out, ModuleDirName(ns));
    SingleEntry(out, SourceFileName(ns));
    EntryArgsAppend(out, [ModuleDirName(ns)], [SourceFileName(ns)]);
    EntryArgsAppend(out, [SourceFileName(ns)], [ModuleDirName(ns)]);
  }

  /** `run_script` passes the module map `compile_bindings` used exactly when
      the module directory of that namespace is listed, and always right after
      `-Xcc`. */
  lemma CompiledModuleMapLoaded(out: Path, ns: string, names: seq<string>)
    requires ValidPath(out) && |ns| > 0 && '/' !in ns
    requires forall i :: 0 <= i < |names| ==> ValidComponent(names[i])
    ensures var a := EntryArgs(out, names); var tok := CompilerArgs(out, ns)[13];
      && (tok in a <==> ModuleDirName(ns) in names)
      && (forall i :: 0 <= i < |a| && a[i] == tok ==> 0 < i && a[i - 1] == Xcc)
  {
    NamesValid(ns);
    ModuleDirRecognised(ns);
    ModuleMapListed(out, names, ModuleDirName(ns));
    assert CompilerArgs(out, ns)[13] == ModuleMapFlag(ModuleMapOf(out, ModuleDirName(ns)));
  }

  /** `run_script` links the library `compile_bindings` emitted exactly when it
      is listed. */
  lemma CompiledLibraryLinked(out: Path, ns: string, names: seq<string>)
    requires ValidPath(out) && '/' !in ns
    requires forall i :: 0 <= i < |names| ==> ValidComponent(names[i])
    ensures LinkFlag(DylibPath(out, ns)) in EntryArgs(out, names) <==> LibraryFileName(ns) in names
  {
    LibraryRecognised(ns);
    assert '/' !in "lib" && '/' !in "." + DylibExtension;
    assert ValidComponent(LibraryFileName(ns));
    LibraryListed(out, names, LibraryFileName(ns));
  }
}
