/** `compile_bindings`: the `swiftc` invocation that builds the generated module. */
module Compiler {
  import opened Outcomes
  import opened Paths
  import opened Layout
  import opened Flags
  import opened Process

  const Swiftc: string := "swiftc"

  // The fixed options of the `swiftc` command line.
  const ModuleNameOpt: string := "-module-name"
  const EmitLibraryOpt: string := "-emit-library"
  const OutputOpt: string := "-o"
  const EmitModuleOpt: string := "-emit-module"
  const EmitModulePathOpt: string := "-emit-module-path"
  const ParseAsLibraryOpt: string := "-parse-as-library"

  /** `<out>/lib<ns>.dylib`, the library `swiftc` is asked to emit. */
  function DylibPath(out: Path, ns: string): Path {
    Push(out, LibraryFileName(ns))
  }

  /** The `swiftc` argument vector: fifteen tokens in a fixed order. The
      module-map and source paths are recomputed here the way
      `compile_bindings` does, and agree with the ones `write_bindings` wrote;
      the module-map flag is a single token directly after `-Xcc`, and the
      source file is the last token. */
  function CompilerArgs(out: Path, ns: string): (r: seq<string>)
    ensures r ==
      [ModuleNameOpt, ns, EmitLibraryOpt, OutputOpt, Text(DylibPath(out, ns))]
      + [EmitModuleOpt, EmitModulePathOpt, Text(out), ParseAsLibraryOpt, LibrarySearchOpt, Text(out)]
      + ["-luniffi_" + ns, Xcc, ModuleMapFlag(PlanLayout(out, ns).moduleMap), Text(PlanLayout(out, ns).source)]
  {
    var moduleMapFile := Push(Push(out, ModuleDirName(ns)), ModuleMapFileName);
    var sourceFile := Push(out, SourceFileName(ns));
    [ModuleNameOpt, ns, EmitLibraryOpt, OutputOpt, Text(DylibPath(out, ns))]
    + [EmitModuleOpt, EmitModulePathOpt, Text(out), ParseAsLibraryOpt, LibrarySearchOpt, Text(out)]
    + ["-luniffi_" + ns, Xcc, ModuleMapFlag(moduleMapFile), Text(sourceFile)]
  }

  /** The path-carrying tokens: the output directory is the eighth and the
      eleventh, the module-map flag the fourteenth and the source the last. */
  lemma CompilerArgsPaths(out: Path, ns: string)
    ensures var r := CompilerArgs(out, ns); var l := PlanLayout(out, ns);
      && r[7] == Text(out) && r[10] == Text(out)
      && r[13] == ModuleMapFlag(l.moduleMap) && r[14] == Text(l.source)
  {
    var r := CompilerArgs(out, ns);
    var l := PlanLayout(out, ns);
    assert r[5..11] == [EmitModuleOpt, EmitModulePathOpt, Text(out), ParseAsLibraryOpt, LibrarySearchOpt, Text(out)];
    assert r[11..] == ["-luniffi_" + ns, Xcc, ModuleMapFlag(l.moduleMap), Text(l.source)];
  }

  /** Read back, the argument vector names exactly the output directory, the
      module map and the source `write_bindings` planned for `ns`. */
  lemma CompilerArgsDecode(out: Path, ns: string)
    requires ValidPath(out) && '/' !in ns
    ensures var r := CompilerArgs(out, ns); var l := PlanLayout(out, ns);
      && Parse(r[7]) == out
      && Parse(r[10]) == out
      && ModuleMapFlagPath(r[13]) == Some(l.moduleMap)
      && Parse(r[14]) == l.source
  {
    var l := PlanLayout(out, ns);
    CompilerArgsPaths(out, ns);
    PlannedPathsValid(out, ns);
    ParseText(out);
    ParseText(l.source);
  }

  /** The namespace is the second token and the output directory the eighth. */
  lemma CompilerArgsNames(out: Path, ns: string)
    ensures CompilerArgs(out, ns)[1] == ns && CompilerArgs(out, ns)[7] == Text(out)
  {
    var r := CompilerArgs(out, ns);
    CompilerArgsPaths(out, ns);
    assert r[..5] == [ModuleNameOpt, ns, EmitLibraryOpt, OutputOpt, Text(DylibPath(out, ns))];
  }

  /** Two compilations with the same argument vector build the same module
      from the same directory. */
  lemma CompilerArgsInjective(out1: Path, ns1: string, out2: Path, ns2: string)
    requires ValidPath(out1) && ValidPath(out2)
    ensures CompilerArgs(out1, ns1) == CompilerArgs(out2, ns2) ==> out1 == out2 && ns1 == ns2
  {
    if CompilerArgs(out1, ns1) == CompilerArgs(out2, ns2) {
      CompilerArgsNames(out1, ns1);
      CompilerArgsNames(out2, ns2);
      TextInjective(out1, out2);
    }
  }

  /** `compile_bindings`: runs `swiftc` with `CompilerArgs`; it succeeds exactly
      when the compiler exits successfully. Nothing is checked on disk first: a
      missing module map surfaces as a failure of `swiftc`. */
  function CompileBindings(out: Path, ns: string, outcome: ProcessOutcome): (r: Launch)
    ensures r.command == Some(Command(Swiftc, CompilerArgs(out, ns)))
    ensures r.status.Done? <==> outcome == Exited(true)
    ensures outcome == Exited(false) ==> r.status == Failed(ToolFailed(Swiftc))
    ensures outcome == SpawnFailed ==> r.status == Failed(IoError)
  {
    Spawn(Command(Swiftc, CompilerArgs(out, ns)), outcome)
  }
}
