/** The capture side of the AOTInductor repro harness: `generate_compiler_repro_string`
    builds the text of a standalone repro script from a graph and its runtime arguments,
    `save_graph_repro` writes that text and the `__main__` trailer to a file object, and
    `dump_to_minify` does the same into an in-memory buffer aimed at the minifier. A script
    is modelled as the sequence of its logical lines; their exact text is not. */
module ReproScript {
  import opened Common
  import opened Strings
  import opened Codec

  /** Which optional attributes `torch.version` has on the capturing machine. */
  datatype Env = Env(hasCudaVersion: bool, hasGitVersion: bool)

  /** What torch.export.export and torch.export.save do during one capture. */
  datatype ExportWorld = ExportWorld(exporting: Outcome, save: Outcome)

  /** The graph module being captured: the targets of its placeholders, in order. */
  datatype Graph = Graph(placeholders: seq<string>)

  /** The keyword arguments of the `run_repro(...)` call the trailer writes; the call also
      passes `config_patches=options`, the `options` the script itself assigns. */
  datatype RunReproCall = RunReproCall(accuracy: AccuracyArg, command: string,
                                       saveDir: Option<string>, checkStr: Option<string>)

  /** One logical line (or block) of a generated repro script. */
  datatype Line =
    | Preamble(stable: bool)         // imports, generate_config_string(stable_output), extra imports
    | TorchVersion                   // "# torch version: ..."
    | CudaVersion                    // "# torch cuda version: ..."
    | GitVersion                     // "# torch git version: ..."
    | CudaSystemInfo                 // _cuda_system_info_comment()
    | Input(stmt: Stmt)              // one statement of the writer's `load_args`
    | LoadExported(path: string)     // mod = torch.export.load('<path>').module()
    | OptionsAssign(options: Option<map<string, string>>)
    | MainGuard                      // if __name__ == '__main__': and the import of run_repro
    | Invoke(call: RunReproCall)     // with torch.no_grad(): run_repro(...)
    | GetArgsHint(call: RunReproCall) // the commented-out get_args variant

  const ExportedProgramFile := "exported_program.pt2"
  const CheckpointsDir := "checkpoints"

  /** POSIX os.path.join(dir, file) for a relative `file`. */
  function Join(dir: string, file: string): (p: string)
    ensures |p| >= |file| && p[|p| - |file|..] == file
    ensures dir == "" ==> p == file
    ensures dir != "" ==> StartsWith(p, dir)
  {
    if dir == "" || dir[|dir| - 1] == '/' then dir + file else dir + "/" + file
  }

  // ---------------------------------------------------------------- the header

  predicate IsVersionLine(l: Line)
  {
    l.TorchVersion? || l.CudaVersion? || l.GitVersion? || l.CudaSystemInfo?
  }

  /** The script header: the preamble, then, unless `stable_output` is set, the torch
      version, the CUDA and git versions when torch.version has them, and the CUDA system
      information comment. */
  function Header(stable: bool, env: Env): (h: seq<Line>)
    ensures |h| > 0 && h[0] == Preamble(stable)
    ensures stable <==> forall i :: 0 <= i < |h| ==> !IsVersionLine(h[i])
    ensures !stable ==> TorchVersion in h && CudaSystemInfo in h &&
                        (CudaVersion in h <==> env.hasCudaVersion) &&
                        (GitVersion in h <==> env.hasGitVersion)
    ensures forall i :: 0 <= i < |h| ==> !h[i].Input?
  {
    if stable then [Preamble(stable)]
    else
      var h := [Preamble(stable), TorchVersion] +
               (if env.hasCudaVersion then [CudaVersion] else []) +
               (if env.hasGitVersion then [GitVersion] else []) +
               [CudaSystemInfo];
      assert IsVersionLine(h[1]);
      h
  }

  // ---------------------------------------------------------------- the inputs

  function InputLines(stmts: seq<Stmt>): (ls: seq<Line>)
    ensures |ls| == |stmts| && forall i :: 0 <= i < |stmts| ==> ls[i] == Input(stmts[i])
  {
    seq(|stmts|, i requires 0 <= i < |stmts| => Input(stmts[i]))
  }

  /** The `load_args` statements a script contains, in script order. */
  function StmtsOf(lines: seq<Line>): seq<Stmt>
  {
    if lines == [] then []
    else StmtsOf(lines[..|lines| - 1]) +
         (if lines[|lines| - 1].Input? then [lines[|lines| - 1].stmt] else [])
  }

  lemma {:induction false} StmtsOfConcat(a: seq<Line>, b: seq<Line>)
    ensures StmtsOf(a + b) == StmtsOf(a) + StmtsOf(b)
    decreases |b|
  {
    if b == [] {
      assert a + b == a;
    } else {
      var n := |b|;
      assert (a + b)[..|a + b| - 1] == a + b[..n - 1];
      StmtsOfConcat(a, b[..n - 1]);
    }
  }

  lemma {:induction false} StmtsOfNoInput(ls: seq<Line>)
    requires forall i :: 0 <= i < |ls| ==> !ls[i].Input?
    ensures StmtsOf(ls) == []
    decreases |ls|
  {
    if ls != [] {
      StmtsOfNoInput(ls[..|ls| - 1]);
    }
  }

  lemma {:induction false} StmtsOfInputLines(stmts: seq<Stmt>)
    ensures StmtsOf(InputLines(stmts)) == stmts
    decreases |stmts|
  {
    if stmts != [] {
      var n := |stmts|;
      assert InputLines(stmts)[..n - 1] == InputLines(stmts[..n - 1]);
      StmtsOfInputLines(stmts[..n - 1]);
    }
  }

  // ---------------------------------------------------------------- generate_compiler_repro_string

  /** generate_compiler_repro_string(gm, args, options=..., stable_output=..., save_dir=...):
      the header, then export and save of the program, then the writer loop; the first of
      these that fails decides the error. */
  function ReproString(graph: Graph, args: seq<Arg>, options: Option<map<string, string>>,
                       stable: bool, saveDir: Option<string>, env: Env, world: ExportWorld)
    : Result<seq<Line>>
  {
    if world.exporting.Raised? then Err(Uncaught(world.exporting.exc))
    else if saveDir.None? then Err(NoSaveDir)
    else if world.save.Raised? then Err(Uncaught(world.save.exc))
    else
      match EncodeInputs(graph.placeholders, args)
      case Err(e) => Err(e)
      case Ok(stmts) =>
        Ok(Header(stable, env) + InputLines(stmts) +
           [LoadExported(Join(saveDir.value, ExportedProgramFile)), OptionsAssign(options)])
  }

  /** The errors come in program order: a failed export wins over a missing save
      directory, which wins over a failed save, which wins over an unsupported argument;
      and a capture without a save directory never gets to write a script. */
  lemma ReproStringErrors(graph: Graph, args: seq<Arg>, options: Option<map<string, string>>,
                          stable: bool, saveDir: Option<string>, env: Env, world: ExportWorld)
    ensures var r := ReproString(graph, args, options, stable, saveDir, env, world);
      (world.exporting.Raised? ==> r == Err(Uncaught(world.exporting.exc))) &&
      (world.exporting.Completed? && saveDir.None? ==> r == Err(NoSaveDir)) &&
      (world.exporting.Completed? && saveDir.Some? && world.save.Raised? ==>
         r == Err(Uncaught(world.save.exc))) &&
      (r.Ok? <==> world.exporting.Completed? && saveDir.Some? && world.save.Completed? &&
                  EncodeInputs(graph.placeholders, args).Ok?) &&
      (r.Err? && r.error.NotAnInput? ==> EncodeInputs(graph.placeholders, args) == Err(r.error))
  {
  }

  /** Capture then replay: the `load_args` statements of a generated script decode to the
      captured arguments, one per placeholder/argument pair, SymInts as their values. */
  lemma {:induction false} ScriptReplaysInputs(graph: Graph, args: seq<Arg>,
                                                options: Option<map<string, string>>, stable: bool,
                                                saveDir: Option<string>, env: Env, world: ExportWorld)
    requires ReproString(graph, args, options, stable, saveDir, env, world).Ok?
    ensures var script := ReproString(graph, args, options, stable, saveDir, env, world).value;
      var n := Min(|graph.placeholders|, |args|);
      |Decode(StmtsOf(script))| == n &&
      forall i :: 0 <= i < n ==> Decode(StmtsOf(script))[i] == Concretise(args[i])
  {
    var stmts := EncodeInputs(graph.placeholders, args).value;
    var h := Header(stable, env);
    var tail := [LoadExported(Join(saveDir.value, ExportedProgramFile)), OptionsAssign(options)];
    StmtsOfConcat(h + InputLines(stmts), tail);
    StmtsOfConcat(h, InputLines(stmts));
    StmtsOfNoInput(h);
    StmtsOfNoInput(tail);
    StmtsOfInputLines(stmts);
    assert StmtsOf(h + InputLines(stmts) + tail) == stmts;
    DecodeEncode(graph.placeholders, args);
  }

  /** The script loads its program from the file it was saved to. */
  lemma ScriptLoadsSavedProgram(graph: Graph, args: seq<Arg>, options: Option<map<string, string>>,
                                stable: bool, saveDir: Option<string>, env: Env, world: ExportWorld)
    requires ReproString(graph, args, options, stable, saveDir, env, world).Ok?
    ensures var script := ReproString(graph, args, options, stable, saveDir, env, world).value;
      saveDir.Some? &&
      script[|script| - 2] == LoadExported(Join(saveDir.value, ExportedProgramFile)) &&
      script[|script| - 1] == OptionsAssign(options)
  {
  }

  // ---------------------------------------------------------------- save_graph_repro

  /** The accuracy written into the trailer: the one given, or, when none is, whether the
      compiler's name mentions "_accuracy". */
  function DefaultAccuracy(accuracy: Option<AccuracyArg>, compilerName: string): AccuracyArg
  {
    match accuracy
    case Some(a) => a
    case None => Flag(Contains(compilerName, "_accuracy"))
  }

  lemma DefaultAccuracyExamples()
    ensures DefaultAccuracy(None, "inductor_accuracy") == Flag(true)
    ensures DefaultAccuracy(None, "aot_inductor") == Flag(false)
    ensures DefaultAccuracy(Some(Mode("")), "inductor_accuracy") == Mode("")
  {
    AccuracySuffixFound();
    assert 'y' in "_accuracy" && 'y' !in "aot_inductor";
    MissingCharNotContained("aot_inductor", "_accuracy", 'y');
  }

  lemma AccuracySuffixFound()
    ensures Contains("inductor_accuracy", "_accuracy")
  {
    var s := "inductor_accuracy";
    assert s[8..8 + 9] == "_accuracy";
    assert OccursAt(s, "_accuracy", 8);
    ContainsIffOccurs(s, "_accuracy");
  }

  /** The `__main__` trailer: the run_repro call, then the commented get_args variant with
      the same accuracy, save directory and check string. */
  function Trailer(call: RunReproCall): (t: seq<Line>)
    ensures |t| == 3 && t[0] == MainGuard
    ensures t[1].Invoke? && t[1].call == call
    ensures t[2].GetArgsHint? && t[2].call == call.(command := "get_args")
  {
    [MainGuard, Invoke(call), GetArgsHint(call.(command := "get_args"))]
  }

  /** Everything save_graph_repro writes, or why it writes nothing. */
  function SavedScript(graph: Graph, args: seq<Arg>, compilerName: string,
                       options: Option<map<string, string>>, stable: bool, saveDir: Option<string>,
                       command: string, accuracy: Option<AccuracyArg>, checkStr: Option<string>,
                       env: Env, world: ExportWorld): Result<seq<Line>>
  {
    match ReproString(graph, args, options, stable, saveDir, env, world)
    case Err(e) => Err(e)
    case Ok(body) =>
      Ok(body + Trailer(RunReproCall(DefaultAccuracy(accuracy, compilerName), command, saveDir, checkStr)))
  }

  /** A saved script ends with its trailer, whose call replays the capture's command, save
      directory and check string, and whose accuracy defaults from the compiler's name. */
  lemma SavedScriptTrailer(graph: Graph, args: seq<Arg>, compilerName: string,
                           options: Option<map<string, string>>, stable: bool, saveDir: Option<string>,
                           command: string, accuracy: Option<AccuracyArg>, checkStr: Option<string>,
                           env: Env, world: ExportWorld)
    ensures var s := SavedScript(graph, args, compilerName, options, stable, saveDir, command,
                                 accuracy, checkStr, env, world);
      var r := ReproString(graph, args, options, stable, saveDir, env, world);
      (s.Ok? <==> r.Ok?) && (s.Err? ==> s == Err(r.error)) &&
      (s.Ok? ==> (|s.value| == |r.value| + 3 && s.value[..|r.value|] == r.value &&
                  s.value[|r.value| + 1] == Invoke(RunReproCall(DefaultAccuracy(accuracy, compilerName),
                                                                command, saveDir, checkStr))))
  {
  }

  /** A writable text file object (the `fd` of save_graph_repro, or an io.StringIO). */
  class Sink {
    var text: seq<Line>

    constructor ()
      ensures text == []
    {
      text := [];
    }

    method Write(lines: seq<Line>)
      modifies this
      ensures text == old(text) + lines
    {
      text := text + lines;
    }
  }

  // ---------------------------------------------------------------- the methods

  /** The writer loop: one statement per placeholder/argument pair, stopping at the first
      argument that is neither an int/SymInt, a tensor nor None. */
  method WriteInputs(saveDir: Option<string>, names: seq<string>, args: seq<Arg>)
    returns (r: Result<seq<Stmt>>)
    ensures r == EncodeInputs(names, args)
  {
    var writer := new InputWriter(saveDir);
    var n := Min(|names|, |args|);
    var i := 0;
    while i < n
      invariant 0 <= i <= n && |writer.lines| == i
      invariant forall j :: 0 <= j < i ==>
        Classify(args[j]).Some? && writer.lines[j] == EncodeArg(names[j], args[j])
    {
      var arg := args[i];
      if arg.IntArg? || arg.BoolArg? || arg.SymIntArg? {
        writer.SymInt(names[i], arg);
      } else if arg.TensorArg? {
        writer.Tensor(names[i], arg.meta);
      } else if arg.NoneArg? {
        writer.Const(names[i]);
      } else {
        ghost var e := EncodeInputs(names, args);
        assert e.Err?;
        ghost var k :| 0 <= k < n && args[k].OtherArg? && e.error == NotAnInput(args[k].text) &&
          forall j :: 0 <= j < k ==> Classify(args[j]).Some?;
        assert k == i;
        return Err(NotAnInput(arg.text));
      }
      i := i + 1;
    }
    ghost var e := EncodeInputs(names, args);
    assert e.Ok? && |e.value| == n;
    assert e.value == writer.lines;
    r := Ok(writer.lines);
  }

  /** generate_compiler_repro_string: builds the script text step by step. */
  method GenerateReproString(graph: Graph, args: seq<Arg>, options: Option<map<string, string>>,
                             stable: bool, saveDir: Option<string>, env: Env, world: ExportWorld)
    returns (r: Result<seq<Line>>)
    ensures r == ReproString(graph, args, options, stable, saveDir, env, world)
  {
    var model := [Preamble(stable)];
    if !stable {
      model := model + [TorchVersion];
      if env.hasCudaVersion {
        model := model + [CudaVersion];
      }
      if env.hasGitVersion {
        model := model + [GitVersion];
      }
      model := model + [CudaSystemInfo];
    }
    assert model == Header(stable, env);
    if world.exporting.Raised? {
      return Err(Uncaught(world.exporting.exc));
    }
    if saveDir.None? {
      return Err(NoSaveDir);
    }
    var path := Join(saveDir.value, ExportedProgramFile);
    if world.save.Raised? {
      return Err(Uncaught(world.save.exc));
    }
    var stmts := WriteInputs(saveDir, graph.placeholders, args);
    if stmts.Err? {
      return Err(stmts.error);
    }
    ghost var header := model;
    model := model + InputLines(stmts.value);
    model := model + [LoadExported(path)];
    model := model + [OptionsAssign(options)];
    assert model == header + InputLines(stmts.value) + [LoadExported(path), OptionsAssign(options)];
    r := Ok(model);
  }

  /** save_graph_repro(fd, gm, args, compiler_name, ...): nothing reaches `fd` unless the
      script could be generated. */
  method SaveGraphRepro(fd: Sink, graph: Graph, args: seq<Arg>, compilerName: string,
                        options: Option<map<string, string>>, stable: bool, saveDir: Option<string>,
                        command: string, accuracy: Option<AccuracyArg>, checkStr: Option<string>,
                        env: Env, world: ExportWorld)
    returns (r: Result<()>)
    modifies fd
    ensures var s := SavedScript(graph, args, compilerName, options, stable, saveDir, command,
                                 accuracy, checkStr, env, world);
      (r.Ok? <==> s.Ok?) && (r.Err? ==> r.error == s.error && fd.text == old(fd.text)) &&
      (r.Ok? ==> fd.text == old(fd.text) + s.value)
  {
    var body := GenerateReproString(graph, args, options, stable, saveDir, env, world);
    if body.Err? {
      return Err(body.error);
    }
    fd.Write(body.value);
    var acc := match accuracy
      case Some(a) => a
      case None => Flag(Contains(compilerName, "_accuracy"));
    var call := RunReproCall(acc, command, saveDir, checkStr);
    fd.Write([MainGuard]);
    fd.Write([Invoke(call), GetArgsHint(call.(command := "get_args"))]);
    r := Ok(());
  }

  /** The script dump_to_minify produces, or why there is none. */
  function MinifyScript(graph: Graph, args: seq<Arg>, compilerName: string,
                        options: Option<map<string, string>>, minifierDir: string,
                        env: Env, world: ExportWorld): Result<seq<Line>>
  {
    SavedScript(graph, args, compilerName, options, false, Some(Join(minifierDir, CheckpointsDir)),
                "minify", None, None, env, world)
  }

  /** A minifier dump always has a save directory, under the minifier's checkpoints
      directory, and asks the replay to minify with no check string. */
  lemma MinifyScriptShape(graph: Graph, args: seq<Arg>, compilerName: string,
                          options: Option<map<string, string>>, minifierDir: string,
                          env: Env, world: ExportWorld)
    ensures var s := MinifyScript(graph, args, compilerName, options, minifierDir, env, world);
      var dir := Join(minifierDir, CheckpointsDir);
      (s.Err? ==> s.error != NoSaveDir) &&
      (s.Ok? ==> LoadExported(Join(dir, ExportedProgramFile)) in s.value &&
                 Invoke(RunReproCall(Flag(Contains(compilerName, "_accuracy")), "minify",
                                     Some(dir), None)) in s.value)
  {
    var s := MinifyScript(graph, args, compilerName, options, minifierDir, env, world);
    if s.Ok? {
      var body := ReproString(graph, args, options, false, Some(Join(minifierDir, CheckpointsDir)), env, world).value;
      assert s.value[|body| - 2] == LoadExported(Join(Join(minifierDir, CheckpointsDir), ExportedProgramFile));
      assert s.value[|body| + 1] == Invoke(RunReproCall(Flag(Contains(compilerName, "_accuracy")), "minify",
                                                        Some(Join(minifierDir, CheckpointsDir)), None));
    }
  }

  /** dump_to_minify(gm, args, compiler_name, options): on success, the directory it
      prints and the buffer text it hands to helper_for_dump_minify; when save_graph_repro
      raises, nothing is printed and the error propagates. */
  method DumpToMinify(graph: Graph, args: seq<Arg>, compilerName: string,
                      options: Option<map<string, string>>, minifierDir: string,
                      env: Env, world: ExportWorld)
    returns (r: Result<(string, seq<Line>)>)
    ensures var s := MinifyScript(graph, args, compilerName, options, minifierDir, env, world);
      (r.Ok? <==> s.Ok?) && (r.Err? ==> r.error == s.error) &&
      (r.Ok? ==> r.value == (Join(minifierDir, CheckpointsDir), s.value))
  {
    var out := new Sink();
    var subdir := Join(minifierDir, CheckpointsDir);
    var saved := SaveGraphRepro(out, graph, args, compilerName, options, false, Some(subdir),
                                "minify", None, None, env, world);
    if saved.Err? {
      return Err(saved.error);
    }
    assert out.text == MinifyScript(graph, args, compilerName, options, minifierDir, env, world).value;
    r := Ok((subdir, out.text));
  }
}
