/** The layout planner of `write_bindings`: where each generated artifact lives. */
module Layout {
  import opened Outcomes
  import opened Paths

  /** Extension of the per-namespace module directory. */
  const ModuleDirExtension: string := "swiftmodule-dir"

  /** File name of the module map inside the module directory. */
  const ModuleMapFileName: string := "uniffi.modulemap"

  /** `<ns>.swiftmodule-dir` */
  function ModuleDirName(ns: string): string {
    ns + "." + ModuleDirExtension
  }

  /** `<ns>-Bridging-Header.h` */
  function HeaderFileName(ns: string): string {
    ns + "-Bridging-Header.h"
  }

  /** `<ns>.swift` */
  function SourceFileName(ns: string): string {
    ns + ".swift"
  }

  /** Extension of the dynamic library `swiftc` emits. */
  const DylibExtension: string := "dylib"

  /** `lib<ns>.dylib`, the library compiled from the generated source. */
  function LibraryFileName(ns: string): string {
    "lib" + ns + "." + DylibExtension
  }

  /** The four planned paths of one generated module. */
  datatype Layout = Layout(moduleDir: Path, moduleMap: Path, header: Path, source: Path)

  /** The set of paths a layout occupies. */
  function Occupied(l: Layout): set<Path> {
    {l.moduleDir, l.moduleMap, l.header, l.source}
  }

  /** Plans the layout for output directory `out` and namespace `ns`: a module
      directory directly under `out`, the module map and the bridging header
      directly inside it, and the wrapper source directly under `out`. The four
      paths are pairwise distinct, and the source never lies in the module
      directory. */
  function PlanLayout(out: Path, ns: string): (l: Layout)
    ensures Parent(l.moduleDir) == out && FileName(l.moduleDir) == Some(ModuleDirName(ns))
    ensures Parent(l.moduleMap) == l.moduleDir && FileName(l.moduleMap) == Some(ModuleMapFileName)
    ensures Parent(l.header) == l.moduleDir && FileName(l.header) == Some(HeaderFileName(ns))
    ensures Parent(l.source) == out && FileName(l.source) == Some(SourceFileName(ns))
    ensures l.moduleMap != l.header && l.source != l.moduleDir
    ensures l.moduleDir !in {l.moduleMap, l.header} && l.source !in {l.moduleMap, l.header}
  {
    var moduleDir := Push(out, ModuleDirName(ns));
    var l := Layout(
      moduleDir,
      Push(moduleDir, ModuleMapFileName),
      Push(moduleDir, HeaderFileName(ns)),
      Push(out, SourceFileName(ns)));
    HeaderNameIsNotModuleMapName(ns);
    PushesDiffer(moduleDir, ModuleMapFileName, moduleDir, HeaderFileName(ns));
    assert |SourceFileName(ns)| != |ModuleDirName(ns)|;
    PushesDiffer(out, SourceFileName(ns), out, ModuleDirName(ns));
    l
  }

  /** A namespace without a separator yields file names without one. */
  lemma NamesValid(ns: string)
    requires '/' !in ns
    ensures ValidComponent(ModuleDirName(ns)) && ValidComponent(ModuleMapFileName)
    ensures ValidComponent(HeaderFileName(ns)) && ValidComponent(SourceFileName(ns))
  {
    assert '/' !in "." + ModuleDirExtension;
    assert '/' !in ModuleMapFileName;
    assert '/' !in "-Bridging-Header.h";
    assert '/' !in ".swift";
  }

  /** The module map's file name is a single path component. */
  lemma ModuleMapFileNameValid()
    ensures ValidComponent(ModuleMapFileName)
  {
    assert '/' !in ModuleMapFileName;
  }

  /** Every planned path of a valid output directory and a separator-free
      namespace is valid, so its text reads back to it. */
  lemma PlannedPathsValid(out: Path, ns: string)
    requires ValidPath(out) && '/' !in ns
    ensures var l := PlanLayout(out, ns);
      ValidPath(l.moduleDir) && ValidPath(l.moduleMap) && ValidPath(l.header) && ValidPath(l.source)
  {
    NamesValid(ns);
  }

  /** `a + s == b + s` only when `a == b`. */
  lemma SuffixCancel(a: string, b: string, s: string)
    requires a + s == b + s
    ensures a == b
  {
    assert |a| == |b|;
    assert a == (a + s)[..|a|];
    assert b == (b + s)[..|b|];
  }

  /** A source file name never equals a module directory name: one ends in 't', the other in 'r'. */
  lemma SourceNameIsNotModuleDirName(ns1: string, ns2: string)
    ensures SourceFileName(ns1) != ModuleDirName(ns2)
  {
    assert SourceFileName(ns1)[|SourceFileName(ns1)| - 1] == 't';
    assert ModuleDirName(ns2)[|ModuleDirName(ns2)| - 1] == 'r';
  }

  /** A header name never equals the module map name: one ends in 'h', the other in 'p'. */
  lemma HeaderNameIsNotModuleMapName(ns: string)
    ensures HeaderFileName(ns) != ModuleMapFileName
  {
    assert HeaderFileName(ns)[|HeaderFileName(ns)| - 1] == 'h';
  }

  /** Distinct namespaces give distinct module directory and source names. */
  lemma NamesInjective(ns1: string, ns2: string)
    requires ns1 != ns2
    ensures ModuleDirName(ns1) != ModuleDirName(ns2)
    ensures SourceFileName(ns1) != SourceFileName(ns2)
  {
    if ModuleDirName(ns1) == ModuleDirName(ns2) {
      assert ModuleDirName(ns1) == ns1 + ("." + ModuleDirExtension);
      assert ModuleDirName(ns2) == ns2 + ("." + ModuleDirExtension);
      SuffixCancel(ns1, ns2, "." + ModuleDirExtension);
    }
    if SourceFileName(ns1) == SourceFileName(ns2) {
      SuffixCancel(ns1, ns2, ".swift");
    }
  }

  /** Pushing different components, or onto different paths, gives different paths. */
  lemma PushesDiffer(a: Path, x: string, b: Path, y: string)
    requires a != b || x != y
    ensures Push(a, x) != Push(b, y)
  {
    assert Push(a, x).comps[|a.comps|] == x;
  }

  /** Two layouts built under one directory from different names share no path. */
  lemma DisjointLayouts(out: Path, l1: Layout, l2: Layout, d1: string, d2: string,
                        s1: string, s2: string, h1: string, h2: string, m: string)
    requires l1 == Layout(Push(out, d1), Push(Push(out, d1), m), Push(Push(out, d1), h1), Push(out, s1))
    requires l2 == Layout(Push(out, d2), Push(Push(out, d2), m), Push(Push(out, d2), h2), Push(out, s2))
    requires d1 != d2 && s1 != s2 && s1 != d2 && s2 != d1 && h1 != m && h2 != m
    ensures Occupied(l1) !! Occupied(l2)
  {
    PushesDiffer(out, d1, out, d2);
    PushesDiffer(out, s1, out, s2);
    PushesDiffer(out, s1, out, d2);
    PushesDiffer(out, d1, out, s2);
    PushesDiffer(l1.moduleDir, m, l2.moduleDir, m);
    PushesDiffer(l1.moduleDir, m, l2.moduleDir, h2);
    PushesDiffer(l1.moduleDir, h1, l2.moduleDir, m);
    PushesDiffer(l1.moduleDir, h1, l2.moduleDir, h2);
  }

  /** Two different namespaces written to the same output directory never share
      a path: this is what the per-namespace module directory buys. Paths are
      told apart by exact, case-sensitive comparison of their components; on a
      file system that ignores case, "Foo" and "foo" would share a module
      directory. A namespace holding '/' is excluded: `PathBuf::push` would
      split it into several components, and "./a" would then name the same
      directory as "a". */
  lemma NamespacesDoNotCollide(out: Path, ns1: string, ns2: string)
    requires ns1 != ns2 && '/' !in ns1 && '/' !in ns2
    ensures Occupied(PlanLayout(out, ns1)) !! Occupied(PlanLayout(out, ns2))
  {
    NamesInjective(ns1, ns2);
    SourceNameIsNotModuleDirName(ns1, ns2);
    SourceNameIsNotModuleDirName(ns2, ns1);
    HeaderNameIsNotModuleMapName(ns1);
    HeaderNameIsNotModuleMapName(ns2);
    DisjointLayouts(out, PlanLayout(out, ns1), PlanLayout(out, ns2),
      ModuleDirName(ns1), ModuleDirName(ns2), SourceFileName(ns1), SourceFileName(ns2),
      HeaderFileName(ns1), HeaderFileName(ns2), ModuleMapFileName);
  }
}
