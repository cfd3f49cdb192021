/** The bindings writer: `generate_bindings`, `generate_module_map` and the
    effect sequence of `write_bindings`. */
module Writer {
  import opened Outcomes
  import opened Paths
  import opened Layout
  import opened Effects

  /** The two artifacts `generate_bindings` renders up front. */
  datatype Bindings = Bindings(header: string, library: string)

  /** Renders the bridging header, then the library; the first failure is reported. */
  function GenerateBindings(t: Templates): (r: Result<Bindings>)
    ensures r.Ok? <==> t.header.Some? && t.library.Some?
    ensures r.Ok? ==> r.value.header == t.header.value && r.value.library == t.library.value
    ensures t.header.None? ==> r == Err(RenderError(BridgingHeader))
    ensures t.header.Some? && t.library.None? ==> r == Err(RenderError(SwiftLibrary))
  {
    match t.header
    case None => Err(RenderError(BridgingHeader))
    case Some(header) =>
      match t.library
      case None => Err(RenderError(SwiftLibrary))
      case Some(library) => Ok(Bindings(header, library))
  }

  /** The steps `write_bindings` performs for layout `l`, in source order: create
      the module directory; render header and library; create and write the
      header; create the module-map file, render the module map from the planned
      header path and write it; create and write the source. A write carries the
      text of the render that precedes it; the empty text stands in only where
      that render failed, and then the run has stopped before the write. */
  function WriteSteps(l: Layout, t: Templates): seq<Step> {
    [ CreateDirAll(l.moduleDir),
      RenderHeader,
      RenderLibrary,
      CreateFile(l.header),
      WriteFile(l.header, t.header.GetOr("")),
      CreateFile(l.moduleMap),
      RenderModuleMap(l.header),
      WriteFile(l.moduleMap, t.moduleMap(l.header).GetOr("")),
      CreateFile(l.source),
      WriteFile(l.source, t.library.GetOr(""))
    ]
  }

  /** No file-system operation among `steps` is refused by the operating system. */
  predicate NoIoFault(steps: seq<Step>, env: Env) {
    forall i :: 0 <= i < |steps| && steps[i].IsIo() ==> env.ioOk(steps[i])
  }

  /** All three templates render, the module map from the planned header path. */
  predicate RendersOk(l: Layout, t: Templates) {
    t.header.Some? && t.library.Some? && t.moduleMap(l.header).Some?
  }

  /** Creating a file and writing `text` to it runs exactly when its directory
      exists and both operations are allowed; the file then holds `text`. */
  lemma CreateThenWrite(fs: FileSystem, p: Path, text: string, env: Env)
    ensures Runs(fs, [CreateFile(p), WriteFile(p, text)], env) <==>
      Parent(p) in fs.dirs && env.ioOk(CreateFile(p)) && env.ioOk(WriteFile(p, text))
    ensures ApplyAll(fs, [CreateFile(p), WriteFile(p, text)]) == fs.(files := fs.files[p := text])
  {
    var s := [CreateFile(p), WriteFile(p, text)];
    var fs1 := Apply(fs, s[0]);
    var fs2 := Apply(fs1, s[1]);
    assert "" + text == text;
    assert fs1.files[p := "" + text] == fs.files[p := text];
    assert fs2 == fs.(files := fs.files[p := text]);
    assert s[1..] == [WriteFile(p, text)];
    assert s[1..][1..] == [];
    assert ApplyAll(fs1, s[1..]) == ApplyAll(fs2, s[1..][1..]);
    assert Runs(fs1, s[1..], env) <==> Succeeds(fs1, s[1], env);
  }

  /** The module-map phase: create the file, render, write. */
  lemma CreateRenderWrite(fs: FileSystem, p: Path, h: Path, text: string, env: Env)
    ensures Runs(fs, [CreateFile(p), RenderModuleMap(h), WriteFile(p, text)], env) <==>
      Parent(p) in fs.dirs && env.ioOk(CreateFile(p))
      && env.templates.moduleMap(h).Some? && env.ioOk(WriteFile(p, text))
    ensures ApplyAll(fs, [CreateFile(p), RenderModuleMap(h), WriteFile(p, text)])
      == fs.(files := fs.files[p := text])
  {
    var s := [CreateFile(p), RenderModuleMap(h), WriteFile(p, text)];
    var fs1 := Apply(fs, s[0]);
    var fs3 := Apply(fs1, s[2]);
    assert "" + text == text;
    assert fs1.files[p := "" + text] == fs.files[p := text];
    assert fs3 == fs.(files := fs.files[p := text]);
    assert s[1..] == [RenderModuleMap(h), WriteFile(p, text)];
    assert s[1..][1..] == [WriteFile(p, text)];
    assert s[1..][1..][1..] == [];
    assert ApplyAll(fs1, s[1..][1..]) == ApplyAll(fs3, s[1..][1..][1..]);
    assert Runs(fs1, s[1..][1..], env) <==> Succeeds(fs1, s[2], env);
  }

  /** The file system after every step of the plan has been performed. */
  function Written(fs: FileSystem, l: Layout, t: Templates): FileSystem {
    FileSystem(
      fs.dirs + Ancestors(l.moduleDir),
      fs.files[l.header := t.header.GetOr("")]
              [l.moduleMap := t.moduleMap(l.header).GetOr("")]
              [l.source := t.library.GetOr("")])
  }

  /** The effect of performing the whole plan, whether or not it would succeed. */
  lemma WriteStepsEffect(fs: FileSystem, l: Layout, t: Templates)
    ensures ApplyAll(fs, WriteSteps(l, t)) == Written(fs, l, t)
  {
    var p0 := [CreateDirAll(l.moduleDir)];
    var p1 := [RenderHeader, RenderLibrary];
    var p2 := [CreateFile(l.header), WriteFile(l.header, t.header.GetOr(""))];
    var p3 := [CreateFile(l.moduleMap), RenderModuleMap(l.header),
               WriteFile(l.moduleMap, t.moduleMap(l.header).GetOr(""))];
    var p4 := [CreateFile(l.source), WriteFile(l.source, t.library.GetOr(""))];
    assert WriteSteps(l, t) == p0 + p1 + p2 + p3 + p4;
    var env := Env(t, s => true);

    var fs1 := fs.(dirs := fs.dirs + Ancestors(l.moduleDir));
    assert ApplyAll(fs, p0) == fs1 by {
      assert p0[1..] == [];
      assert ApplyAll(fs, p0) == ApplyAll(Apply(fs, p0[0]), p0[1..]);
    }
    assert ApplyAll(fs1, p1) == fs1 by {
      assert p1[1..] == [RenderLibrary];
      assert p1[1..][1..] == [];
    }
    var fs2 := fs1.(files := fs1.files[l.header := t.header.GetOr("")]);
    CreateThenWrite(fs1, l.header, t.header.GetOr(""), env);
    var fs3 := fs2.(files := fs2.files[l.moduleMap := t.moduleMap(l.header).GetOr("")]);
    CreateRenderWrite(fs2, l.moduleMap, l.header, t.moduleMap(l.header).GetOr(""), env);
    CreateThenWrite(fs3, l.source, t.library.GetOr(""), env);

    ApplyAllAppend(fs, p0, p1);
    ApplyAllAppend(fs, p0 + p1, p2);
    ApplyAllAppend(fs, p0 + p1 + p2, p3);
    ApplyAllAppend(fs, p0 + p1 + p2 + p3, p4);
  }

  /** The plan's file-system operations are allowed exactly when these seven are. */
  lemma NoIoFaultInPlan(l: Layout, env: Env)
    ensures var t := env.templates;
      NoIoFault(WriteSteps(l, t), env) <==>
        && env.ioOk(CreateDirAll(l.moduleDir))
        && env.ioOk(CreateFile(l.header))
        && env.ioOk(WriteFile(l.header, t.header.GetOr("")))
        && env.ioOk(CreateFile(l.moduleMap))
        && env.ioOk(WriteFile(l.moduleMap, t.moduleMap(l.header).GetOr("")))
        && env.ioOk(CreateFile(l.source))
        && env.ioOk(WriteFile(l.source, t.library.GetOr("")))
  {
    var S := WriteSteps(l, env.templates);
    assert |S| == 10;
    assert !S[1].IsIo() && !S[2].IsIo() && !S[6].IsIo();
    if env.ioOk(S[0]) && env.ioOk(S[3]) && env.ioOk(S[4]) && env.ioOk(S[5])
       && env.ioOk(S[7]) && env.ioOk(S[8]) && env.ioOk(S[9]) {
      forall i | 0 <= i < |S| && S[i].IsIo()
        ensures env.ioOk(S[i])
      {
        assert i in {0, 3, 4, 5, 7, 8, 9};
      }
    }
  }

  /** The plan runs exactly when every one of its steps is allowed, provided the
      header and module map lie in the module directory and the source beside
      it: the module directory, with its parent, is created before anything is
      put in it, and every file is created before it is written. */
  lemma WriteStepsRunSteps(fs: FileSystem, l: Layout, env: Env)
    requires Parent(l.header) == l.moduleDir && Parent(l.moduleMap) == l.moduleDir
    requires Parent(l.source) == Parent(l.moduleDir)
    ensures var t := env.templates;
      Runs(fs, WriteSteps(l, t), env) <==>
        && env.ioOk(CreateDirAll(l.moduleDir))
        && t.header.Some? && t.library.Some?
        && env.ioOk(CreateFile(l.header))
        && env.ioOk(WriteFile(l.header, t.header.GetOr("")))
        && env.ioOk(CreateFile(l.moduleMap))
        && t.moduleMap(l.header).Some?
        && env.ioOk(WriteFile(l.moduleMap, t.moduleMap(l.header).GetOr("")))
        && env.ioOk(CreateFile(l.source))
        && env.ioOk(WriteFile(l.source, t.library.GetOr("")))
  {
    var t := env.templates;
    var p0 := [CreateDirAll(l.moduleDir)];
    var p1 := [RenderHeader, RenderLibrary];
    var p2 := [CreateFile(l.header), WriteFile(l.header, t.header.GetOr(""))];
    var p3 := [CreateFile(l.moduleMap), RenderModuleMap(l.header),
               WriteFile(l.moduleMap, t.moduleMap(l.header).GetOr(""))];
    var p4 := [CreateFile(l.source), WriteFile(l.source, t.library.GetOr(""))];
    assert WriteSteps(l, t) == p0 + p1 + p2 + p3 + p4;

    var fs1 := fs.(dirs := fs.dirs + Ancestors(l.moduleDir));
    assert ApplyAll(fs, p0) == fs1 by {
      assert p0[1..] == [];
      assert ApplyAll(fs, p0) == ApplyAll(Apply(fs, p0[0]), p0[1..]);
    }
    assert Runs(fs, p0, env) <==> env.ioOk(CreateDirAll(l.moduleDir)) by {
      assert p0[1..] == [];
    }
    assert ApplyAll(fs1, p1) == fs1 by {
      assert p1[1..] == [RenderLibrary];
      assert p1[1..][1..] == [];
    }
    assert Runs(fs1, p1, env) <==> t.header.Some? && t.library.Some? by {
      assert p1[1..] == [RenderLibrary];
      assert p1[1..][1..] == [];
    }
    AncestorsHold(l.moduleDir);
    var fs2 := fs1.(files := fs1.files[l.header := t.header.GetOr("")]);
    CreateThenWrite(fs1, l.header, t.header.GetOr(""), env);
    var fs3 := fs2.(files := fs2.files[l.moduleMap := t.moduleMap(l.header).GetOr("")]);
    CreateRenderWrite(fs2, l.moduleMap, l.header, t.moduleMap(l.header).GetOr(""), env);
    CreateThenWrite(fs3, l.source, t.library.GetOr(""), env);

    ApplyAllAppend(fs, p0, p1);
    ApplyAllAppend(fs, p0 + p1, p2);
    ApplyAllAppend(fs, p0 + p1 + p2, p3);
    RunsAppend(fs, p0, p1, env);
    RunsAppend(fs, p0 + p1, p2, env);
    RunsAppend(fs, p0 + p1 + p2, p3, env);
    RunsAppend(fs, p0 + p1 + p2 + p3, p4, env);
  }

  /** The plan runs exactly when no file-system operation is refused and all
      three templates render, whatever the file system held before. */
  lemma WriteStepsRun(fs: FileSystem, l: Layout, env: Env)
    requires Parent(l.header) == l.moduleDir && Parent(l.moduleMap) == l.moduleDir
    requires Parent(l.source) == Parent(l.moduleDir)
    ensures Runs(fs, WriteSteps(l, env.templates), env) <==>
      NoIoFault(WriteSteps(l, env.templates), env) && RendersOk(l, env.templates)
  {
    NoIoFaultInPlan(l, env);
    WriteStepsRunSteps(fs, l, env);
  }

  /** `write_bindings` for namespace `ns` into `out`, starting from `fs`. It
      begins by creating the module directory; it finishes exactly when no
      file-system operation is refused and all three templates render, whatever
      `fs` held; and then the module directory exists and the header, module map
      and source hold exactly what was rendered, the module map rendered from
      the planned header path, with every other file untouched. */
  function WriteBindings(fs: FileSystem, out: Path, ns: string, env: Env): (r: Run)
    ensures |r.trace| > 0 && r.trace[0] == CreateDirAll(PlanLayout(out, ns).moduleDir)
    ensures var l := PlanLayout(out, ns);
      r.status.Done? <==> NoIoFault(WriteSteps(l, env.templates), env) && RendersOk(l, env.templates)
    ensures var l := PlanLayout(out, ns); var t := env.templates;
      r.status.Done? ==>
        && r.fs.dirs == fs.dirs + Ancestors(l.moduleDir)
        && r.fs.files == fs.files[l.header := t.header.value]
                                 [l.moduleMap := t.moduleMap(l.header).value]
                                 [l.source := t.library.value]
  {
    var l := PlanLayout(out, ns);
    WriteStepsRun(fs, l, env);
    WriteStepsEffect(fs, l, env.templates);
    Execute(fs, WriteSteps(l, env.templates), env)
  }
}

module WriterProperties {
  import opened Outcomes
  import opened Paths
  import opened Layout
  import opened Effects
  import opened Writer

  /** The sequencing `write_bindings` promises of any trace `tr` for layout `l`:
      the module directory is the only directory created, and first; no file is
      created or written before both the header and the library are rendered;
      every write goes to a file created earlier; and the module map is
      rendered from the planned header path, after its own file has been
      created and the header has been written. */
  predicate Sequenced(tr: seq<Step>, l: Layout) {
    && (forall i :: 0 <= i < |tr| && tr[i].CreateDirAll? ==> i == 0 && tr[i].dir == l.moduleDir)
    && (forall i :: 0 <= i < |tr| && (tr[i].CreateFile? || tr[i].WriteFile?) ==>
          RenderHeader in tr[..i] && RenderLibrary in tr[..i])
    && (forall i :: 0 <= i < |tr| && tr[i].WriteFile? ==> CreateFile(tr[i].file) in tr[..i])
    && (forall i :: 0 <= i < |tr| && tr[i].RenderModuleMap? ==>
          && tr[i].headerPath == l.header
          && CreateFile(l.moduleMap) in tr[..i]
          && exists j :: 0 <= j < i && tr[j].WriteFile? && tr[j].file == l.header)
  }

  /** Every write in `tr` puts the rendered text of its artifact into the
      artifact's planned file; no placeholder is ever written. */
  predicate WritesRendered(tr: seq<Step>, l: Layout, t: Templates) {
    forall i :: 0 <= i < |tr| && tr[i].WriteFile? ==> WrittenRendered(tr[i], l, t)
  }

  /** A write of one of the three layout files with the text its template rendered. */
  predicate WrittenRendered(s: Step, l: Layout, t: Templates)
    requires s.WriteFile?
  {
    || (s.file == l.header && t.header == Some(s.text))
    || (s.file == l.moduleMap && t.moduleMap(l.header) == Some(s.text))
    || (s.file == l.source && t.library == Some(s.text))
  }

  /** Every prefix of a well-sequenced trace is well sequenced. */
  lemma SequencedPrefix(tr: seq<Step>, l: Layout, k: nat)
    requires Sequenced(tr, l) && k <= |tr|
    ensures Sequenced(tr[..k], l)
  {
    var p := tr[..k];
    assert forall i :: 0 <= i < k ==> p[i] == tr[i] && p[..i] == tr[..i];
  }

  /** The plan creates a directory only at its first step: the module directory. */
  lemma PlanCreatesDirFirst(l: Layout, t: Templates)
    ensures var S := WriteSteps(l, t);
      forall i :: 0 <= i < |S| && S[i].CreateDirAll? ==> i == 0 && S[i].dir == l.moduleDir
  {
    var S := WriteSteps(l, t);
    forall i | 0 <= i < |S| && S[i].CreateDirAll?
      ensures i == 0
    {
      assert i in {0, 1, 2, 3, 4, 5, 6, 7, 8, 9};
    }
  }

  /** The plan renders header and library before any file operation. */
  lemma PlanRendersFirst(l: Layout, t: Templates)
    ensures var S := WriteSteps(l, t);
      forall i :: 0 <= i < |S| && (S[i].CreateFile? || S[i].WriteFile?) ==>
        RenderHeader in S[..i] && RenderLibrary in S[..i]
  {
    var S := WriteSteps(l, t);
    forall i | 0 <= i < |S| && (S[i].CreateFile? || S[i].WriteFile?)
      ensures RenderHeader in S[..i] && RenderLibrary in S[..i]
    {
      assert i in {0, 1, 2, 3, 4, 5, 6, 7, 8, 9};
      assert i >= 3;
      var p := S[..i];
      assert p[1] == RenderHeader && p[2] == RenderLibrary;
    }
  }

  /** The plan writes each file only after creating it. */
  lemma PlanCreatesBeforeWriting(l: Layout, t: Templates)
    ensures var S := WriteSteps(l, t);
      forall i :: 0 <= i < |S| && S[i].WriteFile? ==> CreateFile(S[i].file) in S[..i]
  {
    var S := WriteSteps(l, t);
    forall i | 0 <= i < |S| && S[i].WriteFile?
      ensures CreateFile(S[i].file) in S[..i]
    {
      var p := S[..i];
      assert i in {0, 1, 2, 3, 4, 5, 6, 7, 8, 9};
      assert i in {4, 7, 9};
      if i == 4 {
        assert p[3] == CreateFile(S[i].file);
      } else if i == 7 {
        assert p[5] == CreateFile(S[i].file);
      } else {
        assert p[8] == CreateFile(S[i].file);
      }
    }
  }

  /** The plan renders the module map from the header path, after creating
      the module-map file and writing the header. */
  lemma PlanModuleMapLate(l: Layout, t: Templates)
    ensures var S := WriteSteps(l, t);
      forall i :: 0 <= i < |S| && S[i].RenderModuleMap? ==>
        && S[i].headerPath == l.header
        && CreateFile(l.moduleMap) in S[..i]
        && exists j :: 0 <= j < i && S[j].WriteFile? && S[j].file == l.header
  {
    var S := WriteSteps(l, t);
    forall i | 0 <= i < |S| && S[i].RenderModuleMap?
      ensures S[i].headerPath == l.header
      ensures CreateFile(l.moduleMap) in S[..i]
      ensures exists j :: 0 <= j < i && S[j].WriteFile? && S[j].file == l.header
    {
      assert i in {0, 1, 2, 3, 4, 5, 6, 7, 8, 9};
      assert i == 6;
      assert S[..i][5] == CreateFile(l.moduleMap);
      assert S[4].WriteFile? && S[4].file == l.header;
    }
  }

  /** The plan, as a whole, is well sequenced. */
  lemma PlanSequenced(l: Layout, t: Templates)
    ensures Sequenced(WriteSteps(l, t), l)
  {
    PlanCreatesDirFirst(l, t);
    PlanRendersFirst(l, t);
    PlanCreatesBeforeWriting(l, t);
    PlanModuleMapLate(l, t);
  }

  /** Each write of the plan is preceded by the render that produced its
      text, at the returned position. */
  lemma PlanWriteRender(fs: FileSystem, l: Layout, env: Env, i: nat) returns (j: nat)
    requires i < |WriteSteps(l, env.templates)| && WriteSteps(l, env.templates)[i].WriteFile?
    ensures j < i
    ensures var S := WriteSteps(l, env.templates);
      && !S[j].IsIo()
      && (Succeeds(fs, S[j], env) ==> WrittenRendered(S[i], l, env.templates))
  {
    assert i in {0, 1, 2, 3, 4, 5, 6, 7, 8, 9};
    assert i in {4, 7, 9};
    j := if i == 4 then 1 else if i == 7 then 6 else 2;
  }

  /** The write at position `i` of an execution of the plan writes rendered text. */
  lemma ExecutedWriteRendered(fs: FileSystem, l: Layout, env: Env, i: nat)
    ensures var tr := Execute(fs, WriteSteps(l, env.templates), env).trace;
      i < |tr| && tr[i].WriteFile? ==> WrittenRendered(tr[i], l, env.templates)
  {
    var S := WriteSteps(l, env.templates);
    var tr := Execute(fs, S, env).trace;
    if i < |tr| && tr[i].WriteFile? {
      assert tr[i] == S[i];
      var j := PlanWriteRender(fs, l, env, i);
      RendersBeforeSucceed(fs, S, env, j, i);
    }
  }


  /** Executing the plan writes only rendered text: the render feeding each
      write precedes it, so it is never the failing step. */
  lemma ExecutePlanWritesRendered(fs: FileSystem, l: Layout, env: Env)
    ensures WritesRendered(Execute(fs, WriteSteps(l, env.templates), env).trace, l, env.templates)
  {
    var tr := Execute(fs, WriteSteps(l, env.templates), env).trace;
    forall i | 0 <= i < |tr| && tr[i].WriteFile?
      ensures WrittenRendered(tr[i], l, env.templates)
    {
      ExecutedWriteRendered(fs, l, env, i);
    }
  }

  /** `write_bindings` performs its effects in the source's order, and every
      file it writes receives the text rendered for it. */
  lemma WriteBindingsOrder(fs: FileSystem, out: Path, ns: string, env: Env)
    ensures var r := WriteBindings(fs, out, ns, env); var l := PlanLayout(out, ns);
      Sequenced(r.trace, l) && WritesRendered(r.trace, l, env.templates)
  {
    var l := PlanLayout(out, ns);
    var S := WriteSteps(l, env.templates);
    var r := Execute(fs, S, env);
    assert WriteBindings(fs, out, ns, env) == r;
    assert r.trace == S[..|r.trace|];
    PlanSequenced(l, env.templates);
    SequencedPrefix(S, l, |r.trace|);
    ExecutePlanWritesRendered(fs, l, env);
  }

  /** Running `write_bindings` again on what a successful run left behind
      succeeds again, performs the same steps and changes nothing. */
  lemma WriteBindingsIdempotent(fs: FileSystem, out: Path, ns: string, env: Env)
    requires WriteBindings(fs, out, ns, env).status.Done?
    ensures var r := WriteBindings(fs, out, ns, env);
      var r2 := WriteBindings(r.fs, out, ns, env);
      r2.status.Done? && r2.fs == r.fs && r2.trace == r.trace
  {
    var r := WriteBindings(fs, out, ns, env);
    var r2 := WriteBindings(r.fs, out, ns, env);
    var l := PlanLayout(out, ns);
    var t := env.templates;
    var h, m, s := t.header.value, t.moduleMap(l.header).value, t.library.value;
    var f1 := fs.files[l.header := h][l.moduleMap := m][l.source := s];
    assert r.fs.files == f1;
    assert f1[l.header := h][l.moduleMap := m][l.source := s] == f1;
    assert r.fs.dirs + Ancestors(l.moduleDir) == r.fs.dirs;
  }

  /** The plan creates only the module directory and touches only the layout's files. */
  lemma PlanFootprint(l: Layout, t: Templates)
    ensures Confined(WriteSteps(l, t), Ancestors(l.moduleDir), Occupied(l))
  {
    var S := WriteSteps(l, t);
    PlanCreatesDirFirst(l, t);
    forall i | 0 <= i < |S| && (S[i].CreateFile? || S[i].WriteFile?)
      ensures S[i].file in Occupied(l)
    {
      assert i in {0, 1, 2, 3, 4, 5, 6, 7, 8, 9};
    }
  }

  /** A failed execution of the plan keeps the effects of the steps before the
      failing one, and those lie within the plan's footprint. */
  lemma ExecutePlanFailure(fs: FileSystem, l: Layout, env: Env)
    requires Execute(fs, WriteSteps(l, env.templates), env).status.Failed?
    ensures var r := Execute(fs, WriteSteps(l, env.templates), env);
      && (|r.trace| > 1 ==> Ancestors(l.moduleDir) <= r.fs.dirs)
      && fs.dirs <= r.fs.dirs <= fs.dirs + Ancestors(l.moduleDir)
      && (forall p :: p !in Occupied(l) ==>
            (p in r.fs.files <==> p in fs.files) && Contents(r.fs.files, p) == Contents(fs.files, p))
  {
    var S := WriteSteps(l, env.templates);
    var r := Execute(fs, S, env);
    PlanFootprint(l, env.templates);
    ExecuteConfined(fs, S, env, Ancestors(l.moduleDir), Occupied(l));
    var n := |r.trace| - 1;
    if n > 0 {
      var done := r.trace[..n];
      assert done[0] == S[0] == CreateDirAll(l.moduleDir);
      CreatedDirStays(fs, done);
    }
  }

  /** A failed `write_bindings` is not rolled back: once the module directory
      has been created it stays, yet the run has touched no directory outside
      the module directory's ancestry and no file outside the layout. */
  lemma WriteBindingsFailureKeepsProgress(fs: FileSystem, out: Path, ns: string, env: Env)
    requires WriteBindings(fs, out, ns, env).status.Failed?
    ensures var r := WriteBindings(fs, out, ns, env); var l := PlanLayout(out, ns);
      && (|r.trace| > 1 ==> Ancestors(l.moduleDir) <= r.fs.dirs)
      && fs.dirs <= r.fs.dirs <= fs.dirs + Ancestors(l.moduleDir)
      && (forall p :: p !in Occupied(l) ==>
            (p in r.fs.files <==> p in fs.files) && Contents(r.fs.files, p) == Contents(fs.files, p))
  {
    var l := PlanLayout(out, ns);
    assert WriteBindings(fs, out, ns, env) == Execute(fs, WriteSteps(l, env.templates), env);
    ExecutePlanFailure(fs, l, env);
  }

  /** Performing the plan's first one or two steps (the module directory, then
      the header render) only creates the module directory's ancestry. */
  lemma PlanHeadEffect(fs: FileSystem, l: Layout, t: Templates, n: nat)
    requires 1 <= n <= 2
    ensures ApplyAll(fs, WriteSteps(l, t)[..n]) == fs.(dirs := fs.dirs + Ancestors(l.moduleDir))
  {
    var S := WriteSteps(l, t);
    var fs1 := Apply(fs, S[0]);
    assert S[..n][1..] == S[1..n];
    assert ApplyAll(fs, S[..n]) == ApplyAll(fs1, S[1..n]);
    if n == 2 {
      assert S[1..n][1..] == [];
      assert ApplyAll(fs1, S[1..n]) == ApplyAll(Apply(fs1, S[1]), []);
    }
  }

  /** Executing the plan when the directory can be created but a render of
      `generate_bindings` fails: the run stops at that render. */
  lemma ExecutePlanRenderFailure(fs: FileSystem, l: Layout, env: Env)
    requires env.ioOk(CreateDirAll(l.moduleDir))
    requires GenerateBindings(env.templates).Err?
    ensures var r := Execute(fs, WriteSteps(l, env.templates), env);
      && r.status == Failed(GenerateBindings(env.templates).error)
      && r.fs == fs.(dirs := fs.dirs + Ancestors(l.moduleDir))
  {
    var t := env.templates;
    var S := WriteSteps(l, t);
    var r := Execute(fs, S, env);
    assert r.status.Failed? by {
      if r.status.Done? {
        RunsRenders(fs, S, env, 1);
        RunsRenders(fs, S, env, 2);
      }
    }
    var n := |r.trace| - 1;
    var done := r.trace[..n];
    assert done == S[..n];
    assert n != 0 by {
      assert r.trace[0] == S[0];
    }
    // The renders are steps 1 and 2; one of them fails, so the run stops there.
    if n > 1 {
      assert done[1] == S[1];
      RunsRenders(fs, done, env, 1);
    }
    if n > 2 {
      assert done[2] == S[2];
      RunsRenders(fs, done, env, 2);
    }
    PlanHeadEffect(fs, l, t, n);
  }

  /** When the module directory can be created but `generate_bindings` fails,
      `write_bindings` reports the same render error, leaves the directory in
      place and writes no file. */
  lemma RenderFailureWritesNoFile(fs: FileSystem, out: Path, ns: string, env: Env)
    requires env.ioOk(CreateDirAll(PlanLayout(out, ns).moduleDir))
    requires GenerateBindings(env.templates).Err?
    ensures var r := WriteBindings(fs, out, ns, env);
      && r.status == Failed(GenerateBindings(env.templates).error)
      && r.fs.files == fs.files
      && r.fs.dirs == fs.dirs + Ancestors(PlanLayout(out, ns).moduleDir)
  {
    var l := PlanLayout(out, ns);
    assert WriteBindings(fs, out, ns, env) == Execute(fs, WriteSteps(l, env.templates), env);
    ExecutePlanRenderFailure(fs, l, env);
  }

  /** The plan's first three steps (the module directory and both renders)
      run when the directory may be created and both templates render, and
      they only create the module directory's ancestry. */
  lemma PlanRendersRun(fs: FileSystem, l: Layout, env: Env)
    requires env.ioOk(CreateDirAll(l.moduleDir))
    requires env.templates.header.Some? && env.templates.library.Some?
    ensures var S := WriteSteps(l, env.templates);
      && Runs(fs, S[..3], env)
      && ApplyAll(fs, S[..3]) == fs.(dirs := fs.dirs + Ancestors(l.moduleDir))
  {
    var S := WriteSteps(l, env.templates);
    var p0 := [CreateDirAll(l.moduleDir)];
    var p1 := [RenderHeader, RenderLibrary];
    assert S[..3] == p0 + p1;
    var fs1 := fs.(dirs := fs.dirs + Ancestors(l.moduleDir));
    assert ApplyAll(fs, p0) == fs1 && Runs(fs, p0, env) by {
      assert p0[1..] == [];
      assert ApplyAll(fs, p0) == ApplyAll(Apply(fs, p0[0]), p0[1..]);
    }
    assert ApplyAll(fs1, p1) == fs1 && Runs(fs1, p1, env) by {
      assert p1[1..] == [RenderLibrary];
      assert p1[1..][1..] == [];
    }
    ApplyAllAppend(fs, p0, p1);
    RunsAppend(fs, p0, p1, env);
  }

  /** Executing the plan when everything up to the module-map render succeeds
      and that render fails: the run stops at the render, after the header has
      been written and the module-map file created, and so truncated. */
  lemma ExecutePlanModuleMapFailure(fs: FileSystem, l: Layout, env: Env)
    requires Parent(l.header) == l.moduleDir && Parent(l.moduleMap) == l.moduleDir
    requires env.ioOk(CreateDirAll(l.moduleDir))
    requires env.templates.header.Some? && env.templates.library.Some?
    requires env.ioOk(CreateFile(l.header))
    requires env.ioOk(WriteFile(l.header, env.templates.header.value))
    requires env.ioOk(CreateFile(l.moduleMap))
    requires env.templates.moduleMap(l.header).None?
    ensures var S := WriteSteps(l, env.templates);
      Execute(fs, S, env) == Run(S[..7],
        FileSystem(fs.dirs + Ancestors(l.moduleDir),
                   fs.files[l.header := env.templates.header.value][l.moduleMap := ""]),
        Failed(RenderError(ModuleMap)))
  {
    var t := env.templates;
    var S := WriteSteps(l, t);
    var h := t.header.value;
    var p2 := [CreateFile(l.header), WriteFile(l.header, h), CreateFile(l.moduleMap)];
    assert S[..6] == S[..3] + p2 && S[6] == RenderModuleMap(l.header);

    PlanRendersRun(fs, l, env);
    AncestorsHold(l.moduleDir);
    var fs1 := fs.(dirs := fs.dirs + Ancestors(l.moduleDir));
    var fs3 := fs1.(files := fs1.files[l.header := h][l.moduleMap := ""]);
    assert ApplyAll(fs1, p2) == fs3 && Runs(fs1, p2, env) by {
      var q := [CreateFile(l.moduleMap)];
      assert p2 == [CreateFile(l.header), WriteFile(l.header, h)] + q;
      CreateThenWrite(fs1, l.header, h, env);
      var fs2 := fs1.(files := fs1.files[l.header := h]);
      assert ApplyAll(fs2, q) == fs3 && Runs(fs2, q, env) by {
        assert q[1..] == [];
        assert ApplyAll(fs2, q) == ApplyAll(Apply(fs2, q[0]), q[1..]);
      }
      ApplyAllAppend(fs1, [CreateFile(l.header), WriteFile(l.header, h)], q);
      RunsAppend(fs1, [CreateFile(l.header), WriteFile(l.header, h)], q, env);
    }
    ApplyAllAppend(fs, S[..3], p2);
    RunsAppend(fs, S[..3], p2, env);
    ExecuteStopsAt(fs, S, env, 6);
  }

  /** When the directory, the header and the module-map file can all be
      written but the module map does not render, `write_bindings` reports
      that render error having already written the header and truncated the
      module-map file to nothing; a module map from an earlier run is lost.
      The source file is left as it was. */
  lemma ModuleMapRenderFailure(fs: FileSystem, out: Path, ns: string, env: Env)
    requires var l := PlanLayout(out, ns);
      && env.ioOk(CreateDirAll(l.moduleDir))
      && env.templates.header.Some? && env.templates.library.Some?
      && env.ioOk(CreateFile(l.header))
      && env.ioOk(WriteFile(l.header, env.templates.header.value))
      && env.ioOk(CreateFile(l.moduleMap))
      && env.templates.moduleMap(l.header).None?
    ensures var r := WriteBindings(fs, out, ns, env); var l := PlanLayout(out, ns);
      && r.status == Failed(RenderError(ModuleMap))
      && r.fs.dirs == fs.dirs + Ancestors(l.moduleDir)
      && r.fs.files == fs.files[l.header := env.templates.header.value][l.moduleMap := ""]
      && (l.source in r.fs.files <==> l.source in fs.files)
      && Contents(r.fs.files, l.source) == Contents(fs.files, l.source)
  {
    var l := PlanLayout(out, ns);
    assert WriteBindings(fs, out, ns, env) == Execute(fs, WriteSteps(l, env.templates), env);
    ExecutePlanModuleMapFailure(fs, l, env);
  }
}
