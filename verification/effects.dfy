/** The effects `write_bindings` performs, a small file-system model they act
    on, and the sequencing rule of the source: run the steps in order and stop
    at the first one that fails, leaving everything done so far in place. */
module Effects {
  import opened Outcomes
  import opened Paths

  /** One effect of `write_bindings` or `generate_bindings`. */
  datatype Step =
    | CreateDirAll(dir: Path)
    | RenderHeader
    | RenderLibrary
    | RenderModuleMap(headerPath: Path)
    | CreateFile(file: Path)
    | WriteFile(file: Path, text: string)
  {
    /** True for the steps that touch the file system. */
    predicate IsIo() {
      CreateDirAll? || CreateFile? || WriteFile?
    }
  }

  /** The askama templates, as uninterpreted results for one interface:
      `None` is a render failure. The module map is rendered from a header path. */
  datatype Templates = Templates(
    header: Option<string>,
    library: Option<string>,
    moduleMap: Path -> Option<string>)

  /** The world a run happens in: the templates, and which file-system
      operations the operating system lets succeed. */
  datatype Env = Env(templates: Templates, ioOk: Step -> bool)

  /** Existing directories, and files with their contents. */
  datatype FileSystem = FileSystem(dirs: set<Path>, files: map<Path, string>)

  /** `p` and every directory above it. */
  function Ancestors(p: Path): set<Path> {
    set k | 0 <= k <= |p.comps| :: Path(p.absolute, p.comps[..k])
  }

  /** Creating a directory brings the directory itself and its parent into existence. */
  lemma AncestorsHold(p: Path)
    ensures p in Ancestors(p)
    ensures Parent(p) in Ancestors(p)
  {
    assert p.comps[..|p.comps|] == p.comps;
  }

  /** The contents of `p`, or empty when it does not exist. */
  function Contents(files: map<Path, string>, p: Path): string {
    if p in files then files[p] else ""
  }

  /** Whether `s` succeeds in `fs`: a render succeeds when its template does; a
      file creation needs its parent directory and a write needs its file, and
      both, like directory creation, need the operating system's consent. */
  predicate Succeeds(fs: FileSystem, s: Step, env: Env) {
    match s
    case CreateDirAll(_) => env.ioOk(s)
    case RenderHeader => env.templates.header.Some?
    case RenderLibrary => env.templates.library.Some?
    case RenderModuleMap(h) => env.templates.moduleMap(h).Some?
    case CreateFile(p) => Parent(p) in fs.dirs && env.ioOk(s)
    case WriteFile(p, _) => p in fs.files && env.ioOk(s)
  }

  /** The error a failing step surfaces. */
  function ErrorOf(s: Step): Error {
    match s
    case RenderHeader => RenderError(BridgingHeader)
    case RenderLibrary => RenderError(SwiftLibrary)
    case RenderModuleMap(_) => RenderError(ModuleMap)
    case _ => IoError
  }

  /** The effect of a successful step. A created file is truncated; a write
      appends to what the handle has written so far. */
  function Apply(fs: FileSystem, s: Step): FileSystem {
    match s
    case CreateDirAll(p) => fs.(dirs := fs.dirs + Ancestors(p))
    case CreateFile(p) => fs.(files := fs.files[p := ""])
    case WriteFile(p, t) => fs.(files := fs.files[p := Contents(fs.files, p) + t])
    case _ => fs
  }

  /** The effect of performing all of `steps`, in order. */
  function ApplyAll(fs: FileSystem, steps: seq<Step>): FileSystem
    decreases |steps|
  {
    if |steps| == 0 then fs else ApplyAll(Apply(fs, steps[0]), steps[1..])
  }

  /** Every step of `steps` succeeds in the state its predecessors left. */
  predicate Runs(fs: FileSystem, steps: seq<Step>, env: Env)
    decreases |steps|
  {
    |steps| == 0 || (Succeeds(fs, steps[0], env) && Runs(Apply(fs, steps[0]), steps[1..], env))
  }

  /** What a run leaves behind: the steps attempted, the final state, the outcome. */
  datatype Run = Run(trace: seq<Step>, fs: FileSystem, status: Status)

  /** Performs `steps` in order and aborts at the first failure. The trace is a
      prefix of the plan; the run finishes exactly when every step succeeds,
      and then has performed all of them; otherwise the last step of the trace
      is the first failing one, it surfaces its error and leaves no effect, and
      everything before it stays done. */
  function Execute(fs: FileSystem, steps: seq<Step>, env: Env): (r: Run)
    ensures r.trace <= steps
    ensures r.status.Done? <==> Runs(fs, steps, env)
    ensures r.status.Done? ==> r.trace == steps && r.fs == ApplyAll(fs, steps)
    ensures r.status.Failed? ==>
      && |r.trace| > 0
      && var n := |r.trace| - 1;
      && Runs(fs, r.trace[..n], env)
      && !Succeeds(ApplyAll(fs, r.trace[..n]), r.trace[n], env)
      && r.status.error == ErrorOf(r.trace[n])
      && r.fs == ApplyAll(fs, r.trace[..n])
    decreases |steps|
  {
    if |steps| == 0 then Run([], fs, Done)
    else if !Succeeds(fs, steps[0], env) then Run([steps[0]], fs, Failed(ErrorOf(steps[0])))
    else
      var rest := Execute(Apply(fs, steps[0]), steps[1..], env);
      var r := Run([steps[0]] + rest.trace, rest.fs, rest.status);
      assert r.trace[1..] == rest.trace;
      assert |rest.trace| > 0 ==> r.trace[..|r.trace| - 1][1..] == rest.trace[..|rest.trace| - 1];
      r
  }

  /** Performing `a + b` is performing `a`, then `b`. */
  lemma {:induction false} ApplyAllAppend(fs: FileSystem, a: seq<Step>, b: seq<Step>)
    ensures ApplyAll(fs, a + b) == ApplyAll(ApplyAll(fs, a), b)
    decreases |a|
  {
    if |a| == 0 {
      assert a + b == b;
    } else {
      assert (a + b)[1..] == a[1..] + b;
      ApplyAllAppend(Apply(fs, a[0]), a[1..], b);
    }
  }

  /** `a + b` runs exactly when `a` runs and then `b` runs from where `a` left off. */
  lemma {:induction false} RunsAppend(fs: FileSystem, a: seq<Step>, b: seq<Step>, env: Env)
    ensures Runs(fs, a + b, env) <==> Runs(fs, a, env) && Runs(ApplyAll(fs, a), b, env)
    decreases |a|
  {
    if |a| == 0 {
      assert a + b == b;
    } else {
      assert (a + b)[1..] == a[1..] + b;
      RunsAppend(Apply(fs, a[0]), a[1..], b, env);
    }
  }

  /** When the first `k` steps run and step `k` then fails, execution stops
      there: it has attempted exactly steps `0..k`, kept the effects of the
      first `k` and reports the error of step `k`. */
  lemma {:induction false} ExecuteStopsAt(fs: FileSystem, steps: seq<Step>, env: Env, k: nat)
    requires k < |steps| && Runs(fs, steps[..k], env)
    requires !Succeeds(ApplyAll(fs, steps[..k]), steps[k], env)
    ensures Execute(fs, steps, env)
      == Run(steps[..k + 1], ApplyAll(fs, steps[..k]), Failed(ErrorOf(steps[k])))
    decreases k
  {
    if k == 0 {
      assert steps[..1] == [steps[0]];
    } else {
      var fs1 := Apply(fs, steps[0]);
      assert steps[..k][0] == steps[0];
      assert steps[..k][1..] == steps[1..][..k - 1];
      assert steps[1..][k - 1] == steps[k];
      ExecuteStopsAt(fs1, steps[1..], env, k - 1);
      assert [steps[0]] + steps[1..][..k] == steps[..k + 1];
    }
  }

  /** No step removes a directory. */
  lemma {:induction false} DirsGrow(fs: FileSystem, steps: seq<Step>)
    ensures fs.dirs <= ApplyAll(fs, steps).dirs
    decreases |steps|
  {
    if |steps| > 0 {
      DirsGrow(Apply(fs, steps[0]), steps[1..]);
    }
  }

  /** The footprint `D`, `P` bounds `steps`: the directories they create lie
      in `D`, the files they create or write lie in `P`. */
  predicate Confined(steps: seq<Step>, D: set<Path>, P: set<Path>) {
    && (forall i :: 0 <= i < |steps| && steps[i].CreateDirAll? ==> Ancestors(steps[i].dir) <= D)
    && (forall i :: 0 <= i < |steps| && (steps[i].CreateFile? || steps[i].WriteFile?) ==> steps[i].file in P)
  }

  /** A prefix of confined steps is confined. */
  lemma ConfinedPrefix(steps: seq<Step>, D: set<Path>, P: set<Path>, k: nat)
    requires Confined(steps, D, P) && k <= |steps|
    ensures Confined(steps[..k], D, P)
  {
    assert forall i :: 0 <= i < k ==> steps[..k][i] == steps[i];
  }

  /** Confined steps change nothing outside their footprint. */
  lemma {:induction false} Footprint(fs: FileSystem, steps: seq<Step>, D: set<Path>, P: set<Path>)
    requires Confined(steps, D, P)
    ensures ApplyAll(fs, steps).dirs <= fs.dirs + D
    ensures forall p :: p !in P ==>
      (p in ApplyAll(fs, steps).files <==> p in fs.files)
      && Contents(ApplyAll(fs, steps).files, p) == Contents(fs.files, p)
    decreases |steps|
  {
    if |steps| > 0 {
      var rest := steps[1..];
      assert forall i :: 0 <= i < |rest| ==> rest[i] == steps[i + 1];
      Footprint(Apply(fs, steps[0]), rest, D, P);
    }
  }

  /** An execution of confined steps, failed or not, changes nothing outside
      their footprint and removes no directory. */
  lemma ExecuteConfined(fs: FileSystem, steps: seq<Step>, env: Env, D: set<Path>, P: set<Path>)
    requires Confined(steps, D, P)
    ensures var r := Execute(fs, steps, env);
      && fs.dirs <= r.fs.dirs <= fs.dirs + D
      && (forall p :: p !in P ==>
            (p in r.fs.files <==> p in fs.files) && Contents(r.fs.files, p) == Contents(fs.files, p))
  {
    var r := Execute(fs, steps, env);
    var done := if r.status.Done? then steps else r.trace[..|r.trace| - 1];
    assert done == steps[..|done|];
    ConfinedPrefix(steps, D, P, |done|);
    Footprint(fs, done, D, P);
    DirsGrow(fs, done);
  }

  /** A directory created by the first step stays, whatever follows. */
  lemma CreatedDirStays(fs: FileSystem, steps: seq<Step>)
    requires |steps| > 0 && steps[0].CreateDirAll?
    ensures Ancestors(steps[0].dir) <= ApplyAll(fs, steps).dirs
  {
    DirsGrow(Apply(fs, steps[0]), steps[1..]);
  }

  /** A render succeeds, or not, whatever the file system holds. */
  lemma {:induction false} RunsRenders(fs: FileSystem, steps: seq<Step>, env: Env, i: int)
    requires Runs(fs, steps, env)
    requires 0 <= i < |steps| && !steps[i].IsIo()
    ensures Succeeds(fs, steps[i], env)
    decreases |steps|
  {
    if i > 0 {
      RunsRenders(Apply(fs, steps[0]), steps[1..], env, i - 1);
    }
  }

  /** The steps of an execution known to have succeeded: the whole trace
      when it is done, all but its last step when it failed. */
  lemma SucceededSteps(fs: FileSystem, steps: seq<Step>, env: Env) returns (ok: seq<Step>)
    ensures var tr := Execute(fs, steps, env).trace;
      ok <= tr && |tr| <= |ok| + 1 && Runs(fs, ok, env)
  {
    var r := Execute(fs, steps, env);
    if r.status.Done? {
      ok := r.trace;
    } else {
      ok := r.trace[..|r.trace| - 1];
    }
  }

  /** A render that comes before some step of an execution's trace succeeded,
      whether or not the execution as a whole did. */
  lemma RendersBeforeSucceed(fs: FileSystem, steps: seq<Step>, env: Env, j: nat, i: nat)
    requires j < i < |Execute(fs, steps, env).trace|
    requires !steps[j].IsIo()
    ensures Succeeds(fs, steps[j], env)
  {
    var tr := Execute(fs, steps, env).trace;
    var ok := SucceededSteps(fs, steps, env);
    assert ok[j] == tr[j] == steps[j];
    RunsRenders(fs, ok, env, j);
  }
}
