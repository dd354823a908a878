/** The entry point of a generated repro script, `run_repro`: it warns about keyword
    arguments it does not know, normalises `accuracy`, builds the command-line parser whose
    defaults are the values the script was generated with, parses the command line (or just
    the default command when the script is run with no arguments) and hands the parsed
    options to the handler of the chosen sub-command. */
module Entry {
  import opened Common
  import opened Strings
  import opened Codec
  import opened Replay
  import ReproScript

  // ---------------------------------------------------------------- accuracy

  /** `accuracy is True` becomes "accuracy", `accuracy is False` becomes ""; a string is
      kept as it is. */
  function NormaliseAccuracy(accuracy: AccuracyArg): string
  {
    match accuracy
    case Flag(on) => if on then "accuracy" else ""
    case Mode(text) => text
  }

  /** Accuracy mode is selected exactly by True or by a non-empty string. */
  lemma AccuracyModeIffRequested(accuracy: AccuracyArg)
    ensures NormaliseAccuracy(Flag(true)) == "accuracy" && NormaliseAccuracy(Flag(false)) == ""
    ensures NormaliseAccuracy(accuracy) != "" <==>
            accuracy == Flag(true) || (accuracy.Mode? && accuracy.text != "")
    ensures accuracy.Mode? ==> NormaliseAccuracy(accuracy) == accuracy.text
  {
  }

  // ---------------------------------------------------------------- the parser

  /** The sub-commands the parser accepts. */
  const Subcommands: set<string> := {"run", "minify", "get_args", "minifier-query"}

  /** A command line as the parser reads it. For `--save-dir`/`--no-save-dir`, None means
      neither flag was given, Some(None) `--no-save-dir` and Some(Some(d)) `--save-dir d`;
      the remaining Option fields are None when the flag was not given. */
  datatype CommandLine = CommandLine(
    command: string,
    saveDir: Option<Option<string>>,
    device: Option<string>,
    checkStr: Option<string>,
    skipSavingEagerIntermediates: bool,
    offloadToDisk: bool,
    skipSanity: bool,
    maxGranularity: Option<int>)

  /** The command line holding only the sub-command. */
  function BareCommandLine(command: string): CommandLine
  {
    CommandLine(command, None, None, None, false, false, false, None)
  }

  /** What the parser is given: `[command]` when sys.argv has at most one element, and
      otherwise sys.argv[1:], of which `typed` is the parse. */
  function ParserInput(argv: seq<string>, command: string, typed: CommandLine): CommandLine
  {
    if |argv| <= 1 then BareCommandLine(command) else typed
  }

  /** The commands that register `--check-str`. */
  predicate HasCheckStr(command: string)
  {
    command == "minify" || command == "minifier-query"
  }

  /** The option namespace `parser.parse_args` builds, as the code is written: `save_dir`,
      `check_str` and `device` default to run_repro's arguments and "cpu", the minify flags
      belong to `minify` alone, and no flag defines `accuracy`. */
  function NamespaceAsWritten(line: CommandLine, saveDir: Option<string>, checkStr: Option<string>)
    : Result<Options>
  {
    var c := line.command;
    if c !in Subcommands then Err(BadCommand(c))
    else if c != "minify" && (line.skipSavingEagerIntermediates || line.offloadToDisk ||
                              line.skipSanity || line.maxGranularity.Some?) then
      Err(UnrecognizedArguments(c))
    else if !HasCheckStr(c) && line.checkStr.Some? then Err(UnrecognizedArguments(c))
    else
      Ok(Options(
        c,
        match line.saveDir { case None => saveDir case Some(d) => d },
        match line.device { case None => "cpu" case Some(d) => d },
        None,
        if !HasCheckStr(c) then None
        else match line.checkStr { case None => checkStr case Some(s) => Some(s) },
        line.skipSavingEagerIntermediates,
        line.offloadToDisk,
        line.skipSanity,
        line.maxGranularity))
  }

  /** The namespace with the attribute repro_run reads: `accuracy`, defaulting to
      run_repro's normalised accuracy. */
  function Namespace(line: CommandLine, saveDir: Option<string>, checkStr: Option<string>,
                     accuracy: string): Result<Options>
  {
    match NamespaceAsWritten(line, saveDir, checkStr)
    case Err(e) => Err(e)
    case Ok(o) => Ok(o.(accuracy := Some(accuracy)))
  }

  /** With no command-line arguments the script runs the command it was generated with,
      with run_repro's save directory, the "cpu" device and no minify knobs; `check_str` is
      only kept by the commands that define it. A default command that is not a
      sub-command makes the parser exit. */
  lemma {:induction false} ShortArgvUsesDefaultCommand(argv: seq<string>, command: string,
                                                        typed: CommandLine, saveDir: Option<string>,
                                                        checkStr: Option<string>, accuracy: string)
    requires |argv| <= 1
    ensures var n := Namespace(ParserInput(argv, command, typed), saveDir, checkStr, accuracy);
      (command in Subcommands ==>
         n == Ok(Options(command, saveDir, "cpu", Some(accuracy),
                         if HasCheckStr(command) then checkStr else None,
                         false, false, false, None))) &&
      (command !in Subcommands ==> n == Err(BadCommand(command)))
  {
    assert ParserInput(argv, command, typed) == BareCommandLine(command);
  }

  /** Explicit flags win over the generated defaults. */
  lemma FlagsOverrideDefaults(line: CommandLine, saveDir: Option<string>, checkStr: Option<string>,
                              accuracy: string)
    requires Namespace(line, saveDir, checkStr, accuracy).Ok?
    ensures var o := Namespace(line, saveDir, checkStr, accuracy).value;
      o.command == line.command && o.accuracy == Some(accuracy) &&
      (line.saveDir == Some(None) ==> o.saveDir.None?) &&
      (line.saveDir.Some? ==> o.saveDir == line.saveDir.value) &&
      (line.saveDir.None? ==> o.saveDir == saveDir) &&
      (line.device.Some? ==> o.device == line.device.value) &&
      (line.device.None? ==> o.device == "cpu") &&
      (line.checkStr.Some? ==> o.checkStr == line.checkStr)
  {
  }

  // ---------------------------------------------------------------- dispatch

  /** What run_repro returns: nothing for run and minify, (mod, args) for get_args. */
  datatype Reply = NoValue | ModArgs(value: Replayable)

  function Unit(t: Trace<()>): Trace<Reply>
  {
    Trace(if t.result.Ok? then Ok(NoValue) else Err(t.result.error), t.events)
  }

  /** COMMAND_FNS[options.command](options, mod, load_args, config_patches=...): the table
      has run, minify and get_args; any other command is a KeyError. */
  function Dispatch(options: Options, mod: Module, loadArgs: LoadArgs,
                    configPatches: Option<map<string, string>>, w: World): Trace<Reply>
  {
    if options.command == "minify" then Unit(MinifyReplay(options, mod, loadArgs, configPatches, w))
    else if options.command == "run" then Unit(RunReplay(options, mod, loadArgs, configPatches, w))
    else if options.command == "get_args" then
      var t := CommonReplay(mod, loadArgs, w.exporting);
      Trace(if t.result.Ok? then Ok(ModArgs(t.result.value)) else Err(t.result.error), t.events)
    else Trace(Err(NoHandler(options.command)), [])
  }

  /** The warnings for the keyword arguments run_repro does not recognise, in order. */
  function KwargWarnings(kwargs: seq<string>): (ws: seq<Event>)
    ensures |ws| == |kwargs|
    ensures forall i :: 0 <= i < |kwargs| ==> ws[i] == Warn(UnknownKwarg(kwargs[i]))
  {
    seq(|kwargs|, i requires 0 <= i < |kwargs| => Warn(UnknownKwarg(kwargs[i])))
  }

  /** The arguments of one run_repro call. `typed` is the parse of sys.argv[1:]. */
  datatype Call = Call(
    mod: Module,
    loadArgs: LoadArgs,
    configPatches: Option<map<string, string>>,
    command: string,
    accuracy: AccuracyArg,
    saveDir: Option<string>,
    checkStr: Option<string>,
    kwargs: seq<string>,
    argv: seq<string>,
    typed: CommandLine)

  /** run_repro, with the namespace carrying the accuracy attribute. */
  function RunReproSpec(call: Call, w: World): Trace<Reply>
  {
    var warns := KwargWarnings(call.kwargs);
    var line := ParserInput(call.argv, call.command, call.typed);
    match Namespace(line, call.saveDir, call.checkStr, NormaliseAccuracy(call.accuracy))
    case Err(e) => Trace(Err(e), warns)
    case Ok(o) =>
      var d := Dispatch(o, call.mod, call.loadArgs, call.configPatches, w);
      Trace(d.result, warns + d.events)
  }

  /** run_repro as written: the namespace has no accuracy attribute. */
  function RunReproAsWritten(call: Call, w: World): Trace<Reply>
  {
    var warns := KwargWarnings(call.kwargs);
    var line := ParserInput(call.argv, call.command, call.typed);
    match NamespaceAsWritten(line, call.saveDir, call.checkStr)
    case Err(e) => Trace(Err(e), warns)
    case Ok(o) =>
      var d := Dispatch(o, call.mod, call.loadArgs, call.configPatches, w);
      Trace(d.result, warns + d.events)
  }

  // ---------------------------------------------------------------- properties

  /** Unknown keyword arguments only add warnings, one each and first: the result and every
      later step are the same whatever they are. */
  lemma {:induction false} KwargsOnlyWarn(call: Call, kwargs: seq<string>, w: World)
    ensures var t := RunReproSpec(call, w); var u := RunReproSpec(call.(kwargs := kwargs), w);
      t.result == u.result &&
      t.events[..|call.kwargs|] == KwargWarnings(call.kwargs) &&
      t.events[|call.kwargs|..] == u.events[|kwargs|..]
  {
    var t := RunReproSpec(call, w);
    var u := RunReproSpec(call.(kwargs := kwargs), w);
    var line := ParserInput(call.argv, call.command, call.typed);
    match Namespace(line, call.saveDir, call.checkStr, NormaliseAccuracy(call.accuracy)) {
      case Err(e) =>
        assert t.events == KwargWarnings(call.kwargs) && u.events == KwargWarnings(kwargs);
      case Ok(o) =>
        var d := Dispatch(o, call.mod, call.loadArgs, call.configPatches, w);
        assert t.events == KwargWarnings(call.kwargs) + d.events;
        assert u.events == KwargWarnings(kwargs) + d.events;
        assert t.events[|call.kwargs|..] == d.events == u.events[|kwargs|..];
    }
  }

  /** `minifier-query` parses but has no handler: run_repro raises KeyError before
      load_args or export ever run. */
  lemma MinifierQueryHasNoHandler(call: Call, w: World)
    requires ParserInput(call.argv, call.command, call.typed).command == "minifier-query"
    requires Namespace(ParserInput(call.argv, call.command, call.typed), call.saveDir, call.checkStr,
                       NormaliseAccuracy(call.accuracy)).Ok?
    ensures RunReproSpec(call, w) == Trace(Err(NoHandler("minifier-query")), KwargWarnings(call.kwargs))
    ensures Message(NoHandler("minifier-query")) == "'minifier-query'"
  {
    assert KwargWarnings(call.kwargs) + [] == KwargWarnings(call.kwargs);
  }

  /** A get_args invocation returns the exported module and the decoded arguments, and
      compiles nothing. */
  lemma GetArgsReturnsInputs(call: Call, w: World)
    requires ParserInput(call.argv, call.command, call.typed).command == "get_args"
    requires Namespace(ParserInput(call.argv, call.command, call.typed), call.saveDir, call.checkStr,
                       NormaliseAccuracy(call.accuracy)).Ok?
    requires w.exporting.Completed?
    ensures RunReproSpec(call, w).result ==
            Ok(ModArgs(Replayable(Exported(call.mod), Decode(call.loadArgs.stmts))))
  {
  }

  /** As written, a run that gets past compilation and loading always stops with
      AttributeError on `options.accuracy`, before either check: no mode is ever compared
      or called. */
  lemma AsWrittenRunNeverChecks(call: Call, w: World)
    requires ParserInput(call.argv, call.command, call.typed).command == "run"
    requires NamespaceAsWritten(ParserInput(call.argv, call.command, call.typed),
                                call.saveDir, call.checkStr).Ok?
    requires ReachesBranch(NamespaceAsWritten(ParserInput(call.argv, call.command, call.typed),
                                              call.saveDir, call.checkStr).value.device, w)
    ensures RunReproAsWritten(call, w).result == Err(MissingAttribute("accuracy"))
    ensures Message(RunReproAsWritten(call, w).result.error) ==
            "'Namespace' object has no attribute 'accuracy'"
  {
  }

  /** The handlers read `accuracy` only once a run has got past compilation and loading. */
  lemma DispatchIgnoresAccuracy(o: Options, accuracy: Option<string>, mod: Module, loadArgs: LoadArgs,
                                configPatches: Option<map<string, string>>, w: World)
    requires o.command != "run" || !ReachesBranch(o.device, w)
    ensures Dispatch(o, mod, loadArgs, configPatches, w) ==
            Dispatch(o.(accuracy := accuracy), mod, loadArgs, configPatches, w)
  {
    var o2 := o.(accuracy := accuracy);
    assert MinifierCallFor(o, Replayable(Exported(mod), Decode(loadArgs.stmts)), configPatches) ==
           MinifierCallFor(o2, Replayable(Exported(mod), Decode(loadArgs.stmts)), configPatches);
  }

  /** The corrected run_repro differs from the code as written only where line 237 is
      reached: for every other command, and for a run that stops at export, the device gate,
      compilation or loading, both give the same result and the same steps. */
  lemma AsWrittenAgreesBeforeAccuracy(call: Call, w: World)
    ensures var n := NamespaceAsWritten(ParserInput(call.argv, call.command, call.typed),
                                        call.saveDir, call.checkStr);
      (n.Err? || n.value.command != "run" || !ReachesBranch(n.value.device, w)) ==>
        RunReproAsWritten(call, w) == RunReproSpec(call, w)
  {
    var n := NamespaceAsWritten(ParserInput(call.argv, call.command, call.typed),
                                call.saveDir, call.checkStr);
    if n.Ok? && (n.value.command != "run" || !ReachesBranch(n.value.device, w)) {
      DispatchIgnoresAccuracy(n.value, Some(NormaliseAccuracy(call.accuracy)), call.mod,
                              call.loadArgs, call.configPatches, w);
    }
  }

  /** With the accuracy attribute, a run that reaches the check compares the two models
      exactly when the normalised accuracy is non-empty, and calls the compiled model (once)
      exactly when it is empty, failing when the call or the synchronisation after it
      raises. */
  lemma {:induction false} CorrectedRunFollowsAccuracy(call: Call, w: World)
    requires ParserInput(call.argv, call.command, call.typed).command == "run"
    requires Namespace(ParserInput(call.argv, call.command, call.typed), call.saveDir, call.checkStr,
                       NormaliseAccuracy(call.accuracy)).Ok?
    requires ReachesBranch(Namespace(ParserInput(call.argv, call.command, call.typed), call.saveDir,
                                     call.checkStr, NormaliseAccuracy(call.accuracy)).value.device, w)
    ensures var acc := NormaliseAccuracy(call.accuracy); var r := RunReproSpec(call, w).result;
      (acc != "" ==> (r.Ok? <==> w.sameTwoModels) && (r.Err? ==> r.error == BadAccuracy)) &&
      (acc == "" ==> (r.Ok? <==> CrashSucceeds(Decode(call.loadArgs.stmts), w)) &&
                     (w.call.Raised? ==> r == Err(Uncaught(w.call.exc))) &&
                     (w.call.Completed? && AnyCudaTensor(Decode(call.loadArgs.stmts)) && w.sync.Raised? ==>
                        r == Err(Uncaught(w.sync.exc))))
  {
    var o := Namespace(ParserInput(call.argv, call.command, call.typed), call.saveDir, call.checkStr,
                       NormaliseAccuracy(call.accuracy)).value;
    assert o.command == "run" && o.accuracy == Some(NormaliseAccuracy(call.accuracy));
    assert RunReproSpec(call, w).result == Unit(RunReplay(o, call.mod, call.loadArgs, call.configPatches, w)).result;
    if NormaliseAccuracy(call.accuracy) != "" {
      RunAccuracyBranch(o, call.mod, call.loadArgs, call.configPatches, w);
    } else {
      RunCrashBranch(o, call.mod, call.loadArgs, call.configPatches, w);
    }
  }

  /** The replay honours what the capture wrote: running a saved script with no
      command-line arguments passes its trailer's command, save directory, check string
      (for the commands that define one) and accuracy into the options the handler sees. */
  lemma TrailerReplaysCapture(c: ReproScript.RunReproCall, argv: seq<string>, typed: CommandLine)
    requires |argv| <= 1 && c.command in {"run", "minify", "get_args"}
    ensures Namespace(ParserInput(argv, c.command, typed), c.saveDir, c.checkStr,
                      NormaliseAccuracy(c.accuracy)) ==
            Ok(Options(c.command, c.saveDir, "cpu", Some(NormaliseAccuracy(c.accuracy)),
                       if c.command == "minify" then c.checkStr else None,
                       false, false, false, None))
  {
    ShortArgvUsesDefaultCommand(argv, c.command, typed, c.saveDir, c.checkStr, NormaliseAccuracy(c.accuracy));
  }

  /** A script captured for a compiler whose name mentions "_accuracy" (and no explicit
      accuracy) replays in accuracy mode, any other in crash mode. */
  lemma CapturedAccuracyPicksBranch(compilerName: string)
    ensures RunBranch(Some(NormaliseAccuracy(ReproScript.DefaultAccuracy(None, compilerName)))) ==
            (if Contains(compilerName, "_accuracy") then AccuracyCheck else CrashCheck)
  {
  }

  /** A minifier dump, run with no arguments, minifies from the checkpoints directory
      with no check string on the cpu. */
  lemma {:induction false} MinifyDumpReplaysAsMinify(graph: ReproScript.Graph, args: seq<Arg>,
                                                      compilerName: string,
                                                      options: Option<map<string, string>>,
                                                      minifierDir: string, env: ReproScript.Env,
                                                      world: ReproScript.ExportWorld,
                                                      argv: seq<string>, typed: CommandLine)
    requires |argv| <= 1
    requires ReproScript.MinifyScript(graph, args, compilerName, options, minifierDir, env, world).Ok?
    ensures var dir := ReproScript.Join(minifierDir, ReproScript.CheckpointsDir);
      var c := ReproScript.RunReproCall(ReproScript.DefaultAccuracy(None, compilerName), "minify",
                                        Some(dir), None);
      ReproScript.Invoke(c) in
        ReproScript.MinifyScript(graph, args, compilerName, options, minifierDir, env, world).value &&
      Namespace(ParserInput(argv, c.command, typed), c.saveDir, c.checkStr,
                NormaliseAccuracy(c.accuracy)).value.saveDir == Some(dir) &&
      Namespace(ParserInput(argv, c.command, typed), c.saveDir, c.checkStr,
                NormaliseAccuracy(c.accuracy)).value.checkStr.None?
  {
    var dir := ReproScript.Join(minifierDir, ReproScript.CheckpointsDir);
    var c := ReproScript.RunReproCall(ReproScript.DefaultAccuracy(None, compilerName), "minify",
                                      Some(dir), None);
    ReproScript.MinifyScriptShape(graph, args, compilerName, options, minifierDir, env, world);
    TrailerReplaysCapture(c, argv, typed);
  }

  // ---------------------------------------------------------------- the method

  /** run_repro(mod, load_args, config_patches=..., command=..., accuracy=..., save_dir=...,
      check_str=..., **kwargs) */
  method RunRepro(call: Call, w: World) returns (r: Result<Reply>, events: seq<Event>)
    ensures Trace(r, events) == RunReproSpec(call, w)
  {
    events := [];
    for i := 0 to |call.kwargs|
      invariant |events| == i
      invariant forall j :: 0 <= j < i ==> events[j] == Warn(UnknownKwarg(call.kwargs[j]))
    {
      events := events + [Warn(UnknownKwarg(call.kwargs[i]))];
    }
    assert events == KwargWarnings(call.kwargs);
    var accuracy := NormaliseAccuracy(call.accuracy);
    var parsed := Namespace(ParserInput(call.argv, call.command, call.typed),
                            call.saveDir, call.checkStr, accuracy);
    if parsed.Err? {
      return Err(parsed.error), events;
    }
    var options := parsed.value;
    var more: seq<Event>;
    if options.command == "minify" {
      var res;
      res, more := ReproMinify(options, call.mod, call.loadArgs, call.configPatches, w);
      r := if res.Ok? then Ok(NoValue) else Err(res.error);
    } else if options.command == "run" {
      var res;
      res, more := ReproRun(options, call.mod, call.loadArgs, call.configPatches, w);
      r := if res.Ok? then Ok(NoValue) else Err(res.error);
    } else if options.command == "get_args" {
      var res;
      res, more := ReproGetArgs(options, call.mod, call.loadArgs, call.configPatches, w);
      r := if res.Ok? then Ok(ModArgs(res.value)) else Err(res.error);
    } else {
      return Err(NoHandler(options.command)), events;
    }
    events := events + more;
  }
}
