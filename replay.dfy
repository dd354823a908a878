/** The replay driver of an AOTInductor repro script: the common reconstruction step
    (`repro_common`) and the three command handlers `repro_get_args`, `repro_run` and
    `repro_minify`. Each procedure is specified by a function giving its result and the
    trace of steps it takes, and implemented by a method proved equal to it. */
module Replay {
  import opened Common
  import opened Strings
  import opened Codec

  /** The module being replayed; `Exported(m)` is `export(m, args).module()`. */
  datatype Module = Eager(name: string) | Exported(source: Module)

  /** The generated `load_args` function: its `_version` attribute, when it has one, and
      the reader statements of its body, in order. */
  datatype LoadArgs = LoadArgs(version: Option<int>, stmts: seq<Stmt>)

  /** The parsed option namespace. `accuracy` is None when the namespace has no such
      attribute; the minifier knobs are only read by `minify`. */
  datatype Options = Options(
    command: string,
    saveDir: Option<string>,
    device: string,
    accuracy: Option<string>,
    checkStr: Option<string>,
    skipSavingEagerIntermediates: bool,
    offloadToDisk: bool,
    skipSanity: bool,
    maxGranularity: Option<int>)

  /** What the collaborators do during one replay: export, compile_fx_aot, aot_load (and
      whether it handed back a str), same_two_models, the single compiled call, the device
      synchronisation after it (where a fault of asynchronous execution surfaces), minifier. */
  datatype World = World(
    exporting: Outcome,
    compile: Outcome,
    load: Outcome,
    loadedIsString: bool,
    sameTwoModels: bool,
    call: Outcome,
    sync: Outcome,
    minifier: Outcome)

  datatype Warning = MissingVersion | NewerVersion(version: int) | UnknownKwarg(name: string)

  /** Everything `repro_minify` passes to the minifier. The failure predicate it passes is
      `module_fails` bound to `checkStr`, compiling with `configPatches` and loading on
      `device`; the checkpoint callback dumps states under `compilerName`. */
  datatype MinifierCall = MinifierCall(
    mod: Module,
    args: seq<Arg>,
    checkStr: Option<string>,
    device: string,
    configPatches: Option<map<string, string>>,
    compilerName: string,
    saveDir: Option<string>,
    offloadToDisk: bool,
    skipOffload: bool,
    skipSanity: bool,
    maxGranularity: Option<int>)

  /** The observable steps of a replay, in the order they happen. */
  datatype Event =
    | Warn(warning: Warning)
    | CountPass(total: nat)          // load_args(NopInputReader()); `total` sizes the progress bar
    | MaterialisePass(ticks: nat)    // load_args(InputReader(...)); `ticks` progress-bar updates
    | MakeTuple
    | ExportModule
    | EnableIntermediateHooks        // the global inductor flag, set and never reset
    | GateDevice(device: string)
    | CompileAot(configPatches: Option<map<string, string>>)
    | AotLoad(device: string)
    | CompareModels
    | CallCompiled
    | Synchronize
    | RunMinifier(call: MinifierCall)

  /** The reconstructed module and call arguments. */
  datatype Replayable = Replayable(mod: Module, args: seq<Arg>)

  datatype Trace<T> = Trace(result: Result<T>, events: seq<Event>)

  /** Some `a` occurs in `ev` before any `b` does: every `b` in `ev` comes after an `a`. */
  ghost predicate Precedes(ev: seq<Event>, a: Event, b: Event)
  {
    exists i :: 0 <= i < |ev| && ev[i] == a && forall j :: 0 <= j <= i ==> ev[j] != b
  }

  // ---------------------------------------------------------------- repro_common

  /** The warnings the version check logs; it never stops the replay. */
  function VersionWarnings(version: Option<int>): (ws: seq<Event>)
    ensures |ws| <= 1 && forall i :: 0 <= i < |ws| ==> ws[i].Warn?
  {
    match version
    case None => [Warn(MissingVersion)]
    case Some(v) => if v > 0 then [Warn(NewerVersion(v))] else []
  }

  /** repro_common: version check, counting pass, materialising pass, tuple conversion,
      export, then the debug-hooks flag. */
  function CommonReplay(mod: Module, loadArgs: LoadArgs, exporting: Outcome): Trace<Replayable>
  {
    var n := CountTensors(loadArgs.stmts);
    var ev := VersionWarnings(loadArgs.version) + [CountPass(n), MaterialisePass(n), MakeTuple, ExportModule];
    match exporting
    case Raised(e) => Trace(Err(Uncaught(e)), ev)
    case Completed =>
      Trace(Ok(Replayable(Exported(mod), Decode(loadArgs.stmts))), ev + [EnableIntermediateHooks])
  }

  /** The version attribute only ever produces a warning: a missing or newer version gives
      exactly one, version 0 (or lower) none, and the outcome of repro_common is the same
      whatever the version says. */
  lemma {:induction false} VersionOnlyWarns(mod: Module, version: Option<int>, other: Option<int>,
                                            stmts: seq<Stmt>, exporting: Outcome)
    ensures CommonReplay(mod, LoadArgs(version, stmts), exporting).result
         == CommonReplay(mod, LoadArgs(other, stmts), exporting).result
    ensures var ws := CommonReplay(mod, LoadArgs(version, stmts), exporting).events;
      (version.None? ==> ws[0] == Warn(MissingVersion)) &&
      (version.Some? && version.value > 0 ==> ws[0] == Warn(NewerVersion(version.value))) &&
      ((version.None? || version.value > 0) ==> ws[1] == CountPass(CountTensors(stmts))) &&
      (version.Some? && version.value <= 0 ==> ws[0] == CountPass(CountTensors(stmts)))
    ensures CommonReplay(mod, LoadArgs(version, stmts), exporting).result.Ok? <==> exporting.Completed?
  {
  }

  /** The steps of repro_common happen in the fixed order: counting before materialising,
      materialising before the tuple conversion, the tuple before export, and the hooks flag
      only after a successful export. Both passes agree on the number of storages. */
  lemma {:induction false} CommonStepOrder(mod: Module, loadArgs: LoadArgs, exporting: Outcome)
    ensures var t := CommonReplay(mod, loadArgs, exporting); var n := CountTensors(loadArgs.stmts);
      Precedes(t.events, CountPass(n), MaterialisePass(n)) &&
      Precedes(t.events, MaterialisePass(n), MakeTuple) &&
      Precedes(t.events, MakeTuple, ExportModule) &&
      (exporting.Completed? ==> Precedes(t.events, ExportModule, EnableIntermediateHooks)) &&
      (exporting.Raised? ==> EnableIntermediateHooks !in t.events)
  {
    var t := CommonReplay(mod, loadArgs, exporting);
    var n := CountTensors(loadArgs.stmts);
    var k := |VersionWarnings(loadArgs.version)|;
    var steps := [CountPass(n), MaterialisePass(n), MakeTuple, ExportModule];
    assert t.events[..k + 4] == VersionWarnings(loadArgs.version) + steps;
    assert forall j :: 0 <= j < k ==> t.events[j].Warn?;
    assert t.events[k] == CountPass(n) && t.events[k + 1] == MaterialisePass(n);
    assert t.events[k + 2] == MakeTuple && t.events[k + 3] == ExportModule;
    if exporting.Completed? {
      assert t.events[k + 4] == EnableIntermediateHooks;
    } else {
      assert t.events == VersionWarnings(loadArgs.version) + steps;
    }
  }

  /** The reconstructed arguments are the decoded statements, one per statement and in
      statement order: a list turned into a tuple, never reordered. */
  lemma {:induction false} CommonKeepsOrder(mod: Module, loadArgs: LoadArgs)
    ensures var r := CommonReplay(mod, loadArgs, Completed).result;
      r.Ok? && |r.value.args| == |loadArgs.stmts| &&
      forall i :: 0 <= i < |loadArgs.stmts| ==> r.value.args[i] == DecodeStmt(loadArgs.stmts[i])
  {
  }

  // ---------------------------------------------------------------- device gate

  /** The device gate of repro_run and repro_minify: "cpu", or anything that starts with
      "cuda"; every other device raises RuntimeError("Unsupported device " + device). */
  function CheckDevice(device: string): (r: Result<()>)
    ensures r.Ok? <==> device == "cpu" || (|device| >= 4 && device[..4] == "cuda")
    ensures r.Err? ==> r.error == UnsupportedDevice(device) &&
                       Message(r.error) == "Unsupported device " + device
  {
    if device != "cpu" && !StartsWith(device, "cuda") then Err(UnsupportedDevice(device))
    else Ok(())
  }

  lemma DeviceGateExamples()
    ensures CheckDevice("cpu").Ok? && CheckDevice("cuda").Ok? && CheckDevice("cuda:1").Ok?
    ensures CheckDevice("tpu").Err? && CheckDevice("cpu:0").Err? && CheckDevice("cud").Err?
  {
    assert "cuda:1"[..4] == "cuda";
    assert "cpu:0"[..4] != "cuda" by { assert "cpu:0"[1] == 'p'; }
  }

  // ---------------------------------------------------------------- repro_run

  predicate IsCudaTensor(arg: Arg)
  {
    arg.TensorArg? && arg.meta.device.kind == "cuda"
  }

  predicate AnyCudaTensor(args: seq<Arg>)
  {
    exists i :: 0 <= i < |args| && IsCudaTensor(args[i])
  }

  /** Crash mode ends normally: the call returned and, when a CUDA tensor is among the
      arguments, so did the synchronisation after it. */
  predicate CrashSucceeds(args: seq<Arg>, w: World)
  {
    w.call.Completed? && (!AnyCudaTensor(args) || w.sync.Completed?)
  }

  /** The branch `repro_run` takes at the `options.accuracy != ""` test. */
  datatype Branch = NoAccuracyAttribute | AccuracyCheck | CrashCheck

  function RunBranch(accuracy: Option<string>): Branch
  {
    match accuracy
    case None => NoAccuracyAttribute
    case Some(a) => if a != "" then AccuracyCheck else CrashCheck
  }

  /** What repro_run does once repro_common has handed back `args`: the device gate,
      compilation, loading and one of the two checks. */
  function RunAfterCommon(options: Options, args: seq<Arg>,
                          configPatches: Option<map<string, string>>, w: World): Trace<()>
  {
    var gated := [GateDevice(options.device)];
    if CheckDevice(options.device).Err? then Trace(Err(UnsupportedDevice(options.device)), gated)
    else
      var compiled := gated + [CompileAot(configPatches)];
      if w.compile.Raised? then Trace(Err(Uncaught(w.compile.exc)), compiled)
      else
        var loaded := compiled + [AotLoad(options.device)];
        if w.load.Raised? then Trace(Err(Uncaught(w.load.exc)), loaded)
        else if w.loadedIsString then Trace(Err(CompiledIsString), loaded)
        else
          match RunBranch(options.accuracy)
          case NoAccuracyAttribute => Trace(Err(MissingAttribute("accuracy")), loaded)
          case AccuracyCheck =>
            Trace(if w.sameTwoModels then Ok(()) else Err(BadAccuracy), loaded + [CompareModels])
          case CrashCheck =>
            var called := loaded + [CallCompiled];
            if w.call.Raised? then Trace(Err(Uncaught(w.call.exc)), called)
            else if !AnyCudaTensor(args) then Trace(Ok(()), called)
            else Trace(if w.sync.Raised? then Err(Uncaught(w.sync.exc)) else Ok(()), called + [Synchronize])
  }

  /** repro_run */
  function RunReplay(options: Options, mod: Module, loadArgs: LoadArgs,
                     configPatches: Option<map<string, string>>, w: World): Trace<()>
  {
    var c := CommonReplay(mod, loadArgs, w.exporting);
    if c.result.Err? then Trace(Err(c.result.error), c.events)
    else
      var t := RunAfterCommon(options, c.result.value.args, configPatches, w);
      Trace(t.result, c.events + t.events)
  }

  /** The collaborators let repro_run reach its accuracy test. */
  predicate ReachesBranch(device: string, w: World)
  {
    w.exporting.Completed? && CheckDevice(device).Ok? && w.compile.Completed? &&
    w.load.Completed? && !w.loadedIsString
  }

  /** The device gate runs after repro_common (export included) and before compilation: an
      unsupported device fails with the gate's error after exporting and never compiles, and
      whenever compilation happens the device was accepted. */
  lemma {:induction false} RunGatesDeviceBeforeCompile(options: Options, mod: Module, loadArgs: LoadArgs,
                                                        configPatches: Option<map<string, string>>, w: World)
    ensures var t := RunReplay(options, mod, loadArgs, configPatches, w);
      (w.exporting.Completed? && CheckDevice(options.device).Err? ==>
         t.result == Err(UnsupportedDevice(options.device)) &&
         ExportModule in t.events && CompileAot(configPatches) !in t.events) &&
      (CompileAot(configPatches) in t.events ==>
         CheckDevice(options.device).Ok? &&
         Precedes(t.events, ExportModule, GateDevice(options.device)) &&
         Precedes(t.events, GateDevice(options.device), CompileAot(configPatches)))
  {
    var t := RunReplay(options, mod, loadArgs, configPatches, w);
    var c := CommonReplay(mod, loadArgs, w.exporting);
    var k := |VersionWarnings(loadArgs.version)|;
    assert CompileAot(configPatches) !in c.events;
    if w.exporting.Completed? {
      var r := RunAfterCommon(options, Decode(loadArgs.stmts), configPatches, w);
      assert t.events == c.events + r.events;
      assert t.events[k + 3] == c.events[k + 3] == ExportModule;
      assert t.events[|c.events|] == r.events[0] == GateDevice(options.device);
      if CheckDevice(options.device).Ok? {
        assert t.events[|c.events| + 1] == r.events[1] == CompileAot(configPatches);
      }
    }
  }

  /** Accuracy mode: with a non-empty accuracy the compiled model is never called on its own;
      the replay compares the two models and raises AccuracyError exactly when they differ. */
  lemma {:induction false} RunAccuracyBranch(options: Options, mod: Module, loadArgs: LoadArgs,
                                              configPatches: Option<map<string, string>>, w: World)
    requires ReachesBranch(options.device, w)
    requires options.accuracy.Some? && options.accuracy.value != ""
    ensures var t := RunReplay(options, mod, loadArgs, configPatches, w);
      (t.result == Err(BadAccuracy) <==> !w.sameTwoModels) &&
      (t.result.Ok? <==> w.sameTwoModels) &&
      CompareModels in t.events && CallCompiled !in t.events && Synchronize !in t.events
  {
    var c := CommonReplay(mod, loadArgs, w.exporting);
    assert CallCompiled !in c.events && Synchronize !in c.events;
  }

  /** The crash check on its own: one call, then a synchronisation exactly when the call
      returned and some argument is a CUDA tensor; a raise of either propagates. */
  lemma {:induction false} CrashCheckSteps(options: Options, args: seq<Arg>,
                                            configPatches: Option<map<string, string>>, w: World)
    requires CheckDevice(options.device).Ok? && w.compile.Completed? && w.load.Completed? &&
             !w.loadedIsString && options.accuracy == Some("")
    ensures var r := RunAfterCommon(options, args, configPatches, w);
      r.events == [GateDevice(options.device), CompileAot(configPatches), AotLoad(options.device), CallCompiled] +
                  (if w.call.Completed? && AnyCudaTensor(args) then [Synchronize] else []) &&
      (r.result.Ok? <==> CrashSucceeds(args, w)) &&
      (w.call.Raised? ==> r.result == Err(Uncaught(w.call.exc))) &&
      (w.call.Completed? && AnyCudaTensor(args) && w.sync.Raised? ==> r.result == Err(Uncaught(w.sync.exc)))
  {
  }

  /** Crash mode: with an empty accuracy the compiled model is called exactly once, and a
      device synchronisation follows the call exactly when the call returned and some
      argument is a CUDA tensor. The run ends normally exactly when the call and, if it
      happened, the synchronisation returned; otherwise the first of them to raise decides
      the error. */
  lemma {:induction false} RunCrashBranch(options: Options, mod: Module, loadArgs: LoadArgs,
                                           configPatches: Option<map<string, string>>, w: World)
    requires ReachesBranch(options.device, w)
    requires options.accuracy == Some("")
    ensures var t := RunReplay(options, mod, loadArgs, configPatches, w);
      multiset(t.events)[CallCompiled] == 1 &&
      CompareModels !in t.events &&
      (Synchronize in t.events <==> w.call.Completed? && AnyCudaTensor(Decode(loadArgs.stmts))) &&
      (Synchronize in t.events ==> Precedes(t.events, CallCompiled, Synchronize)) &&
      (t.result.Ok? <==> CrashSucceeds(Decode(loadArgs.stmts), w)) &&
      (w.call.Raised? ==> t.result == Err(Uncaught(w.call.exc))) &&
      (w.call.Completed? && AnyCudaTensor(Decode(loadArgs.stmts)) && w.sync.Raised? ==>
         t.result == Err(Uncaught(w.sync.exc)))
  {
    var c := CommonReplay(mod, loadArgs, w.exporting);
    var args := Decode(loadArgs.stmts);
    var synced := w.call.Completed? && AnyCudaTensor(args);
    CrashCheckSteps(options, args, configPatches, w);
    CommonIsSetupOnly(mod, loadArgs, w.exporting);
    CrashTraceShape(c.events, options.device, configPatches, synced);
  }

  /** repro_common never compiles, calls, compares or synchronises. */
  lemma CommonIsSetupOnly(mod: Module, loadArgs: LoadArgs, exporting: Outcome)
    ensures var ev := CommonReplay(mod, loadArgs, exporting).events;
      CallCompiled !in ev && Synchronize !in ev && CompareModels !in ev
  {
  }

  /** The crash-mode steps appended to setup steps that contain no call, comparison or
      synchronisation: one call, no comparison, and a synchronisation only when requested,
      after the call. */
  lemma CrashTraceShape(pre: seq<Event>, device: string, configPatches: Option<map<string, string>>,
                        synced: bool)
    requires CallCompiled !in pre && Synchronize !in pre && CompareModels !in pre
    ensures var ev := pre + ([GateDevice(device), CompileAot(configPatches), AotLoad(device), CallCompiled] +
                             (if synced then [Synchronize] else []));
      multiset(ev)[CallCompiled] == 1 && CompareModels !in ev &&
      (Synchronize in ev <==> synced) && (synced ==> Precedes(ev, CallCompiled, Synchronize))
  {
    var post := [GateDevice(device), CompileAot(configPatches), AotLoad(device), CallCompiled] +
                (if synced then [Synchronize] else []);
    var ev := pre + post;
    assert multiset(ev) == multiset(pre) + multiset(post);
    if synced {
      assert ev[|pre| + 3] == CallCompiled && ev[|pre| + 4] == Synchronize;
    }
  }

  /** An unrecognised device such as "tpu" stops a run before compilation, with the
      unsupported-device error; the module has already been exported by then. */
  lemma TpuIsRejected(options: Options, mod: Module, loadArgs: LoadArgs,
                      configPatches: Option<map<string, string>>, w: World)
    requires options.device == "tpu" && w.exporting.Completed?
    ensures var t := RunReplay(options, mod, loadArgs, configPatches, w);
      t.result == Err(UnsupportedDevice("tpu")) && ExportModule in t.events &&
      CompileAot(configPatches) !in t.events
  {
    RunGatesDeviceBeforeCompile(options, mod, loadArgs, configPatches, w);
  }

  // ---------------------------------------------------------------- repro_minify

  const MinifyCompilerName := "aot_inductor"

  function MinifierCallFor(options: Options, r: Replayable,
                           configPatches: Option<map<string, string>>): MinifierCall
  {
    MinifierCall(r.mod, r.args, options.checkStr, options.device, configPatches, MinifyCompilerName,
                 options.saveDir, options.offloadToDisk, options.skipSavingEagerIntermediates,
                 options.skipSanity, options.maxGranularity)
  }

  /** repro_minify */
  function MinifyReplay(options: Options, mod: Module, loadArgs: LoadArgs,
                        configPatches: Option<map<string, string>>, w: World): Trace<()>
  {
    var c := CommonReplay(mod, loadArgs, w.exporting);
    if c.result.Err? then Trace(Err(c.result.error), c.events)
    else
      var gated := c.events + [GateDevice(options.device)];
      if CheckDevice(options.device).Err? then Trace(Err(UnsupportedDevice(options.device)), gated)
      else
        var call := MinifierCallFor(options, c.result.value, configPatches);
        Trace(if w.minifier.Raised? then Err(Uncaught(w.minifier.exc)) else Ok(()),
              gated + [RunMinifier(call)])
  }

  /** The minifier runs exactly when export succeeded and the device passed the gate, after
      the gate; it receives the exported module, the decoded arguments, an oracle filtered by
      the option's check string, compiling with `configPatches` and loading on the option's
      device, the compiler name "aot_inductor" and the option knobs
      (`--skip-saving-eager-intermediates` becoming its `skip_offload`). An unsupported
      device fails with the gate's error; otherwise minify fails exactly when the minifier
      raises. repro_minify itself never compiles. */
  lemma {:induction false} MinifyWiring(options: Options, mod: Module, loadArgs: LoadArgs,
                                         configPatches: Option<map<string, string>>, w: World)
    ensures var t := MinifyReplay(options, mod, loadArgs, configPatches, w);
      var call := MinifierCallFor(options, Replayable(Exported(mod), Decode(loadArgs.stmts)), configPatches);
      (RunMinifier(call) in t.events <==> w.exporting.Completed? && CheckDevice(options.device).Ok?) &&
      (RunMinifier(call) in t.events ==> Precedes(t.events, GateDevice(options.device), RunMinifier(call))) &&
      CompileAot(configPatches) !in t.events &&
      call.compilerName == "aot_inductor" && call.checkStr == options.checkStr &&
      call.saveDir == options.saveDir && call.offloadToDisk == options.offloadToDisk &&
      call.skipOffload == options.skipSavingEagerIntermediates &&
      call.skipSanity == options.skipSanity && call.maxGranularity == options.maxGranularity &&
      call.device == options.device && call.configPatches == configPatches &&
      (w.exporting.Completed? && CheckDevice(options.device).Err? ==>
         t.result == Err(UnsupportedDevice(options.device))) &&
      (w.exporting.Completed? && CheckDevice(options.device).Ok? ==>
         (t.result.Ok? <==> w.minifier.Completed?))
  {
    var t := MinifyReplay(options, mod, loadArgs, configPatches, w);
    var c := CommonReplay(mod, loadArgs, w.exporting);
    var call := MinifierCallFor(options, Replayable(Exported(mod), Decode(loadArgs.stmts)), configPatches);
    assert RunMinifier(call) !in c.events && CompileAot(configPatches) !in c.events;
    if w.exporting.Completed? && CheckDevice(options.device).Ok? {
      assert t.events[|c.events|] == GateDevice(options.device);
      assert t.events[|c.events| + 1] == RunMinifier(call);
    }
  }

  // ---------------------------------------------------------------- the methods

  /** load_args(NopInputReader()) */
  method CountingPass(stmts: seq<Stmt>) returns (total: nat)
    ensures total == CountTensors(stmts)
  {
    var reader := new NopInputReader();
    var i := 0;
    while i < |stmts|
      invariant 0 <= i <= |stmts|
      invariant reader.total == CountTensors(stmts[..i])
    {
      match stmts[i] {
        case TensorStmt(_, m) => reader.Tensor(m);
        case SymIntStmt(_, v) => reader.SymInt(v);
        case ConstStmt(n) => reader.Const(n);
      }
      assert stmts[..i + 1][..i] == stmts[..i];
      i := i + 1;
    }
    assert stmts[..i] == stmts;
    total := reader.total;
  }

  /** load_args(InputReader(save_dir=..., pbar=...)); `args` is `input_reader.args`. */
  method MaterialisingPass(saveDir: Option<string>, stmts: seq<Stmt>) returns (args: seq<Arg>, ticks: nat)
    ensures args == Decode(stmts) && ticks == CountTensors(stmts)
  {
    var reader := new InputReader(saveDir);
    var i := 0;
    while i < |stmts|
      invariant 0 <= i <= |stmts|
      invariant reader.args == Decode(stmts[..i])
      invariant reader.ticks == CountTensors(stmts[..i])
    {
      match stmts[i] {
        case TensorStmt(_, m) => reader.Tensor(m);
        case SymIntStmt(_, v) => reader.SymInt(v);
        case ConstStmt(n) => reader.Const(n);
      }
      assert stmts[..i + 1][..i] == stmts[..i];
      i := i + 1;
    }
    assert stmts[..i] == stmts;
    args, ticks := reader.args, reader.ticks;
  }

  /** repro_common(options, mod, load_args) */
  method ReproCommon(options: Options, mod: Module, loadArgs: LoadArgs, exporting: Outcome)
    returns (r: Result<Replayable>, events: seq<Event>)
    ensures Trace(r, events) == CommonReplay(mod, loadArgs, exporting)
  {
    events := [];
    match loadArgs.version {
      case None => events := events + [Warn(MissingVersion)];
      case Some(v) =>
        if v > 0 {
          events := events + [Warn(NewerVersion(v))];
        }
    }
    var total := CountingPass(loadArgs.stmts);
    events := events + [CountPass(total)];
    var args, ticks := MaterialisingPass(options.saveDir, loadArgs.stmts);
    events := events + [MaterialisePass(ticks)];
    events := events + [MakeTuple];
    events := events + [ExportModule];
    if exporting.Raised? {
      return Err(Uncaught(exporting.exc)), events;
    }
    events := events + [EnableIntermediateHooks];
    r := Ok(Replayable(Exported(mod), args));
  }

  /** repro_get_args: the reconstructed module and arguments, nothing compiled. */
  method ReproGetArgs(options: Options, mod: Module, loadArgs: LoadArgs,
                      configPatches: Option<map<string, string>>, w: World)
    returns (r: Result<Replayable>, events: seq<Event>)
    ensures Trace(r, events) == CommonReplay(mod, loadArgs, w.exporting)
  {
    r, events := ReproCommon(options, mod, loadArgs, w.exporting);
  }

  /** The need_sync scan of repro_run: stops at the first CUDA tensor. */
  method NeedSync(args: seq<Arg>) returns (needSync: bool)
    ensures needSync <==> AnyCudaTensor(args)
  {
    needSync := false;
    var i := 0;
    while i < |args|
      invariant 0 <= i <= |args|
      invariant forall j :: 0 <= j < i ==> !IsCudaTensor(args[j])
    {
      if IsCudaTensor(args[i]) {
        needSync := true;
        break;
      }
      i := i + 1;
    }
  }

  /** repro_run(options, mod, load_args, config_patches) */
  method ReproRun(options: Options, mod: Module, loadArgs: LoadArgs,
                  configPatches: Option<map<string, string>>, w: World)
    returns (r: Result<()>, events: seq<Event>)
    ensures Trace(r, events) == RunReplay(options, mod, loadArgs, configPatches, w)
  {
    var common;
    common, events := ReproCommon(options, mod, loadArgs, w.exporting);
    if common.Err? {
      return Err(common.error), events;
    }
    var args := common.value.args;
    var device := options.device;
    events := events + [GateDevice(device)];
    if device != "cpu" && !StartsWith(device, "cuda") {
      return Err(UnsupportedDevice(device)), events;
    }
    events := events + [CompileAot(configPatches)];
    if w.compile.Raised? {
      return Err(Uncaught(w.compile.exc)), events;
    }
    events := events + [AotLoad(device)];
    if w.load.Raised? {
      return Err(Uncaught(w.load.exc)), events;
    }
    if w.loadedIsString {
      return Err(CompiledIsString), events;
    }
    if options.accuracy.None? {
      return Err(MissingAttribute("accuracy")), events;
    }
    if options.accuracy.value != "" {
      events := events + [CompareModels];
      if !w.sameTwoModels {
        return Err(BadAccuracy), events;
      }
      return Ok(()), events;
    }
    var needSync := NeedSync(args);
    events := events + [CallCompiled];
    if w.call.Raised? {
      return Err(Uncaught(w.call.exc)), events;
    }
    if needSync {
      events := events + [Synchronize];
      if w.sync.Raised? {
        return Err(Uncaught(w.sync.exc)), events;
      }
    }
    r := Ok(());
  }

  /** repro_minify(options, mod, load_args, config_patches) */
  method ReproMinify(options: Options, mod: Module, loadArgs: LoadArgs,
                     configPatches: Option<map<string, string>>, w: World)
    returns (r: Result<()>, events: seq<Event>)
    ensures Trace(r, events) == MinifyReplay(options, mod, loadArgs, configPatches, w)
  {
    var common;
    common, events := ReproCommon(options, mod, loadArgs, w.exporting);
    if common.Err? {
      return Err(common.error), events;
    }
    var device := options.device;
    events := events + [GateDevice(device)];
    if device != "cpu" && !StartsWith(device, "cuda") {
      return Err(UnsupportedDevice(device)), events;
    }
    var call := MinifierCall(common.value.mod, common.value.args, options.checkStr, device,
                             configPatches, MinifyCompilerName, options.saveDir,
                             options.offloadToDisk, options.skipSavingEagerIntermediates,
                             options.skipSanity, options.maxGranularity);
    events := events + [RunMinifier(call)];
    if w.minifier.Raised? {
      return Err(Uncaught(w.minifier.exc)), events;
    }
    r := Ok(());
  }
}
