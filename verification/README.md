# Swift bindings backend of uniffi, modelled in Dafny

This project models the pure core of uniffi's Swift backend
(`uniffi/src/bindings/swift/mod.rs`). The backend does four things:

- **`write_bindings`** plans where the generated files of a component go.
  - The module directory is `<out>/<ns>.swiftmodule-dir`.
  - Inside it go `uniffi.modulemap` and `<ns>-Bridging-Header.h`.
  - The Swift source `<ns>.swift` goes directly in `<out>`.
  - It then creates the directory, renders the templates and writes the files, in a fixed order.
- **`generate_bindings`** renders the bridging header and then the library. The first failure is reported.
- **`compile_bindings`** runs `swiftc` with a fixed fifteen-token argument vector. The vector recomputes the module-map and source paths.
- **`run_script`** runs `swift`.
  - With an output directory, it first passes `-I <out> -L <out>`.
  - Then, for every entry of that directory in listing order, it passes:
    - `-Xcc -fmodule-map-file=<entry>/uniffi.modulemap` for a `swiftmodule-dir` entry;
    - `-l<entry>` for a `dylib` or `so` entry;
    - nothing for any other entry.
  - The script path comes last.

How the model is built:

- **Paths.** A path is a sequence of components with an absolute flag, and pushing appends one component. `Text` renders a path and `Parse` reads it back.
- **Steps.** `write_bindings` becomes a ten-step plan of directory creation, renders, file creations and writes.
- **Execution.** The plan runs on a small file-system model (a set of directories and a map of files), stopping at the first failing step.
- **Inputs.** Whatever the model cannot see is an input:
  - whether each template renders, and what it renders;
  - whether the operating system allows each file-system operation;
  - the directory listing;
  - how a spawned process ends.

The modules follow the program's structure:

- `Paths`: path values, `PathBuf::push`, the path text and `Path::extension`.
- `Layout`: the file names and the four planned paths.
- `Effects`: steps, the file-system model and the execution that stops at the first failure.
- `Writer`: `generate_bindings`, and `write_bindings` as a plan of steps.
- `WriterProperties`: ordering, idempotence and failure behaviour of `write_bindings`.
- `Flags`: the single-token `-fmodule-map-file=` and `-l` flags.
- `Process`: spawning a program and checking its exit status.
- `Compiler`: `compile_bindings`.
- `Interpreter`: `run_script`.
- `Pipeline`: how what `write_bindings` and `compile_bindings` leave behind is picked up by `run_script`.

Where the behaviour is easy to misread, the model follows the code:

- `compile_bindings` does not check that the module map exists. A missing module map only shows up as a failing `swiftc`.
- The errors raised by `?` on file-system operations carry no path. The model reports a bare `IoError`.
- `run_script` interleaves the module-map and library flags in listing order. It does not group them.
- The module map is rendered only after its file has been created and after the header has been written. It is not rendered together with the header and library.
- So a failed module-map render is not free of partial output. The header has already been written, and `File::create` has already truncated `uniffi.modulemap` to nothing. A module map left by an earlier run is lost.

## Model

| member | source | states |
|---|---|---|
| Paths.Push | uniffi/src/bindings/swift/mod.rs:33-44 | pushing a component yields a path whose parent is the original path and whose file name is the component, one component longer, and valid when both parts are |
| Paths.ParseText | uniffi/src/bindings/swift/mod.rs:89-90 | the text of a valid path parses back to the same path, so a path turned into command-line text loses nothing |
| Paths.Extension | uniffi/src/bindings/swift/mod.rs:135 | a name has an extension exactly when it has a '.' after its first character; the extension is the dot-free text after the last '.' |
| Paths.ExtensionIs | uniffi/src/bindings/swift/mod.rs:135-143 | for a dot-free suffix, the extension equals it exactly when the name is a non-empty stem, a '.' and that suffix |
| Layout.PlanLayout | uniffi/src/bindings/swift/mod.rs:33-44 | the module directory is `<ns>.swiftmodule-dir` under `out`; module map and header are its children; the source is `<ns>.swift` directly under `out`; the four paths are pairwise distinct |
| Layout.NamespacesDoNotCollide | uniffi/src/bindings/swift/mod.rs:29-44 | two different namespaces without '/' planned into the same directory occupy disjoint sets of paths, telling paths apart case-sensitively |
| Layout.PlannedPathsValid | uniffi/src/bindings/swift/mod.rs:33-44 | for a valid output directory and a namespace without '/', every planned path is valid |
| Effects.Execute | uniffi/src/bindings/swift/mod.rs:35-55 | execution performs a prefix of the steps; it finishes exactly when every step succeeds, and then has applied them all; otherwise it stops at the first failing step, reports that step's error and keeps the effects of the steps before it |
| Effects.ExecuteStopsAt | uniffi/src/bindings/swift/mod.rs:35-55 | when the first `k` steps run and step `k` fails, the run has attempted exactly steps `0..k`, kept the effects of the first `k` and reports step `k`'s error |
| Effects.ExecuteConfined | uniffi/src/bindings/swift/mod.rs:35-55 | an execution, failed or not, removes no directory and changes no file outside the footprint of its steps |
| Writer.GenerateBindings | uniffi/src/bindings/swift/mod.rs:61-70 | succeeds exactly when both header and library render, returning the rendered texts; a header failure is reported even when the library would also fail |
| Writer.CreateThenWrite | uniffi/src/bindings/swift/mod.rs:48-49 | creating then writing a file runs exactly when its directory exists and both operations are allowed, and leaves the file holding exactly the written text |
| Writer.WriteStepsRun | uniffi/src/bindings/swift/mod.rs:35-55 | the plan runs to completion exactly when no file-system operation is refused and all three templates render, whatever the file system held |
| Writer.WriteBindings | uniffi/src/bindings/swift/mod.rs:26-58 | starts by creating the module directory; finishes exactly when no operation is refused and all renders succeed; then the module directory exists and header, module map and source hold exactly the rendered texts, with every other file unchanged |
| WriterProperties.PlanSequenced | uniffi/src/bindings/swift/mod.rs:35-55 | in the plan, the module directory is created first and only once; both renders precede every file operation; each write follows its file's creation; the module map is rendered from the header path after its file is created and the header written |
| WriterProperties.WriteBindingsOrder | uniffi/src/bindings/swift/mod.rs:35-55 | every trace `write_bindings` performs, complete or cut short, keeps that order, and every write puts the rendered text of its artifact into the artifact's planned file |
| WriterProperties.WriteBindingsIdempotent | uniffi/src/bindings/swift/mod.rs:26-58 | after a successful run, running again succeeds with the same steps and leaves the file system as it was |
| WriterProperties.WriteBindingsFailureKeepsProgress | uniffi/src/bindings/swift/mod.rs:35-55 | a failed run is not rolled back: the module directory stays once created; no directory outside its ancestry and no file outside the layout changes |
| WriterProperties.RenderFailureWritesNoFile | uniffi/src/bindings/swift/mod.rs:35-46 | when the directory can be created but rendering header or library fails, the run reports that render error, leaves the directory and writes no file |
| WriterProperties.ExecutePlanModuleMapFailure | uniffi/src/bindings/swift/mod.rs:35-52 | when every step before the module-map render succeeds and that render fails, the run stops after seven steps with the module-map render error, the header written and the module-map file empty |
| WriterProperties.ModuleMapRenderFailure | uniffi/src/bindings/swift/mod.rs:35-52 | when the directory, header and module-map file can be written but the module map does not render, `write_bindings` reports that error, having written the header and emptied the module-map file; the source file is unchanged |
| Flags.ModuleMapFlag | uniffi/src/bindings/swift/mod.rs:89-90 | the module-map flag is a single token, recognised as a module-map flag and never `-Xcc`; reading the path back from it gives the valid path it was built from |
| Flags.ModuleMapFlagInjective | uniffi/src/bindings/swift/mod.rs:89-90 | module-map flags of valid paths are equal exactly when the paths are |
| Flags.LinkFlagInjective | uniffi/src/bindings/swift/mod.rs:144-145 | link flags of valid paths are equal exactly when the paths are |
| Flags.FlagKindsDiffer | uniffi/src/bindings/swift/mod.rs:139-146 | a link flag is neither `-Xcc` nor a module-map flag, and `-Xcc` is not a module-map flag |
| Process.Spawn | uniffi/src/bindings/swift/mod.rs:119-123 | running a command succeeds exactly when it exits successfully; a spawn failure is an I/O error and an unsuccessful exit a failure of that program |
| Compiler.CompilerArgs | uniffi/src/bindings/swift/mod.rs:103-118 | the fifteen `swiftc` tokens in order, with the module-map flag right after `-Xcc` and the source last, both naming the paths `write_bindings` planned |
| Compiler.CompilerArgsDecode | uniffi/src/bindings/swift/mod.rs:85-93 | read back, the argument vector names the output directory, the planned module map and the planned source |
| Compiler.CompilerArgsInjective | uniffi/src/bindings/swift/mod.rs:103-118 | equal argument vectors come from the same output directory and namespace |
| Compiler.CompileBindings | uniffi/src/bindings/swift/mod.rs:103-124 | runs `swiftc` with that vector and succeeds exactly when `swiftc` exits successfully, reporting a spawn failure as an I/O error and a bad exit as a `swiftc` failure |
| Interpreter.Classify | uniffi/src/bindings/swift/mod.rs:135-148 | an entry is a module directory exactly when its name ends in `.swiftmodule-dir` after a non-empty stem, and a library exactly when it ends that way in `.dylib` or `.so` |
| Interpreter.EntryFlags | uniffi/src/bindings/swift/mod.rs:135-148 | a module directory contributes `-Xcc` and its module map's flag, a library its link flag, anything else nothing |
| Interpreter.EntryArgs | uniffi/src/bindings/swift/mod.rs:133-149 | the entries contribute two tokens per module directory and one per library, and every `-Xcc` is paired with a following module-map flag and vice versa |
| Interpreter.EntryArgsAppend | uniffi/src/bindings/swift/mod.rs:133-149 | entries contribute in listing order: the tokens of a concatenated listing are the concatenated tokens |
| Interpreter.ModuleMapListed | uniffi/src/bindings/swift/mod.rs:136-142 | an entry's module map is passed exactly when the entry is listed and is a module directory |
| Interpreter.LibraryListed | uniffi/src/bindings/swift/mod.rs:143-146 | an entry is linked exactly when it is listed and is a library |
| Interpreter.InterpreterArgs | uniffi/src/bindings/swift/mod.rs:131-154 | without an output directory only the script, if any; with one, `-I out -L out`, then the entries' tokens, then the script last; length 4 + 2·dirs + libs, plus one for a script |
| Interpreter.EntryNames | uniffi/src/bindings/swift/mod.rs:133-134 | the names of a listing are available exactly when every entry could be read, and then they are the entries' names in order |
| Interpreter.RunScript | uniffi/src/bindings/swift/mod.rs:127-160 | a failed listing, or a failed entry of it, is an I/O error before anything runs; otherwise `swift` runs with the interpreter arguments and succeeds exactly when it exits successfully |
| Pipeline.WrittenOutputLoadsLikeCompiler | uniffi/src/bindings/swift/mod.rs:136-142 | listing what `write_bindings` places in the output directory, in either order, makes `run_script` pass exactly the `-Xcc` and module-map tokens `compile_bindings` passes |
| Pipeline.CompiledModuleMapLoaded | uniffi/src/bindings/swift/mod.rs:136-142 | the module-map token of `compile_bindings` appears among `run_script`'s entry tokens exactly when the namespace's module directory is listed, and always right after `-Xcc` |
| Pipeline.CompiledLibraryLinked | uniffi/src/bindings/swift/mod.rs:143-146 | the library `compile_bindings` emits is linked by `run_script` exactly when it is listed |
| Pipeline.SourceSkipped | uniffi/src/bindings/swift/mod.rs:135-148 | the generated `<ns>.swift` is neither a module directory nor a library |
| Pipeline.EmptyNamespaceModuleDirSkipped | uniffi/src/bindings/swift/mod.rs:135-136 | with an empty namespace the module directory `.swiftmodule-dir` has no extension, so `run_script` does not load it |

## Left out

- Templates and component interface:
  - The askama templates, `Config`, `BridgingHeader`, `SwiftWrapper`, `ModuleMap` and `ComponentInterface` are foreign code and are not part of this model.
  - Each render is an input: the rendered text, or none when it fails. The module map's render is a function of the header path.
  - Of the component interface only the namespace string is kept.
- Real file-system effects are replaced by a set of directories and a map of files, and an input decides which operations the operating system allows.
  - `create_dir_all` succeeds or fails as a whole. A partial creation is not modelled.
  - A `write!` either completes or fails. A short write is not modelled.
  - Permissions, symbolic links and concurrent changes to the directory are not modelled.
- Spawning and waiting are replaced by an input outcome.
  - A failing `wait()` is folded into a failed spawn, since both are I/O errors.
  - Inherited standard streams and the environment are not modelled.
- Error messages (the `anyhow!` and `bail!` texts) are reduced to the `Error` variants. I/O errors carry no detail.
- `PathBuf` and `OsString` platform details are left out: separators other than '/', a pushed absolute component replacing the path, and non-UTF-8 data. Properties that need a path to read back require a namespace without '/'.
- Layout.NamespacesDoNotCollide: path identity is exact, case-sensitive equality of components. On a case-insensitive file system, such as the macOS default the `.dylib` output targets, namespaces that differ only in case (for example "Foo" and "foo") share one module directory and one `uniffi.modulemap`, and their layouts collide.
- Writer.WriteBindings: a path is never checked against being a file and a directory at once, and `create_dir_all` is not checked against what the file system holds. A file already standing where the module directory goes, or a directory where a file goes, is modelled only as an operation the operating system refuses.
- Paths.Push: a component containing '/' is kept as one component. `PathBuf::push` would split it, and the operating system would resolve `.` and `..` in it. Its `Parent` and `FileName` guarantees hold of the real path only for a component without '/'. That is why `Layout.NamespacesDoNotCollide` and the properties that read paths back require a namespace without '/'.
- `Path::extension` is modelled for a file name: the text after its last '.', none when that '.' is the first character or there is none. The special names `.` and `..` are not modelled, because a directory listing never yields them.
- The directory listing is an input sequence of entries, in the order the operating system gives. It is not sorted, as in the code.
- Interpreter.InterpreterArgs: the `-Xcc` pairing is stated for the entry tokens only. A relative output directory or script whose text itself starts with `-Xcc` or `-fmodule-map-file=` is not excluded.
