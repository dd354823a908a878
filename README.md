# AOTInductor repro harness, modelled in Dafny

This project models the harness that captures an AOTInductor failure as a standalone Python
script and replays it. The harness lives in `torch/_dynamo/repro/aoti.py`. The model covers
both halves:

- **Capture.** `generate_compiler_repro_string`, `save_graph_repro` and `dump_to_minify` turn a
  graph and its runtime arguments into a script. The script has a header, then one
  `load_args` statement per input, then the load of the exported program, then the
  `__main__` trailer that calls `run_repro`.
- **Replay.** `run_repro` warns about unknown keyword arguments, normalises `accuracy` and
  parses the command line, or just the script's default command when there are no arguments.
  It then dispatches to a handler.
- **Handlers.** `repro_get_args`, `repro_run` and `repro_minify` all start with
  `repro_common`: a version check, the counting and materialising reader passes, the tuple
  conversion and the export.

Modules:

- **Common**: values shared by everything: options, outcomes, exceptions, errors.
- **Strings**: `str.startswith` and Python's substring test `sub in s`.
- **Codec**: argument kinds and the statements the input writer records. Also how the two
  readers read those statements back.
- **Oracle**: `module_fails`, the failure predicate given to the minifier.
- **Replay**: `repro_common`, the device gate, `repro_run`, `repro_minify` and `repro_get_args`.
- **ReproScript**: generating, saving and dumping the repro script.
- **Entry**: `run_repro`: keyword-argument warnings, accuracy normalisation, argv handling,
  the option namespace and the command table.

How procedures are modelled:

- Each straight-line procedure has a specification **function**. It returns a result and the
  trace of its observable steps: warnings, reader passes, export, device gate, compilation,
  loading, comparison, call, synchronisation and the minifier call.
- An imperative **method** builds that trace step by step and is proved equal to the function.
- Each loop of the source is a method with loop invariants: the two reader passes, the
  writer loop, the `need_sync` scan and the keyword-argument loop.
- Mutable objects are classes whose methods state their whole new state: the input writer,
  the two readers and the file object the script is written to.
- What a collaborator does is a parameter: `Completed` or `Raised(exc)`. This covers export,
  `torch.export.save`, `compile_fx_aot`, `aot_load`, the compiled artifact,
  `torch.cuda.synchronize`, `same_two_models` (a bool) and the minifier.

Three behaviours of the code worth knowing before reading the lemmas:

- **The device gate runs after `repro_common`.** An unsupported device such as "tpu" makes
  `run` and `minify` fail only after the inputs have been read and the module exported; they
  never reach compilation (`Replay.RunGatesDeviceBeforeCompile`, `Replay.TpuIsRejected`).
- **`minifier-query` has no handler.** The parser accepts it, but the command table has no
  entry for it, so `run_repro` raises KeyError before anything is loaded
  (`Entry.MinifierQueryHasNoHandler`).
- **The corrected namespace.** As written, `run` raises AttributeError at line 237 (see
  "## Findings"). `Entry.RunReproAsWritten` models the code as written; `Entry.RunReproSpec`
  and the method `Entry.RunRepro` use the corrected namespace, which carries `accuracy`.
  `Entry.AsWrittenAgreesBeforeAccuracy` proves the two differ only once a run reaches
  line 237.

## Model

| member | source | states |
|---|---|---|
| Codec.Classify | torch/_dynamo/repro/aoti.py:165-173 | the isinstance chain rejects an argument exactly when it is none of int, bool, SymInt, tensor or None (int, bool and SymInt share the SymInt path) |
| Codec.EncodeArg | torch/_dynamo/repro/aoti.py:165-171 | the recorded statement keeps the placeholder name and has the kind the isinstance chain picks; it is a constant statement exactly for None |
| Codec.EncodeInputs | torch/_dynamo/repro/aoti.py:163-173 | the writer loop succeeds iff every argument up to the shorter of placeholders and args is an int/SymInt/bool, a tensor or None; on success one statement per pair, in order; otherwise the TypeError names the first unsupported argument |
| Codec.Decode | torch/_dynamo/repro/aoti.py:203-205 | the materialising reader yields one value per statement, in statement order |
| Codec.DecodeEncode | torch/_dynamo/repro/aoti.py:163-173 | round trip: decoding the recorded statements gives every captured argument back, tensors with their metadata and SymInts as their observed integers |
| Codec.TensorAndSymIntRoundTrip | torch/_dynamo/repro/aoti.py:163-173 | a (4, 4) tensor and a SymInt observed at 4 replay as a (4, 4) tensor and the integer 4 |
| Codec.CountMatchesTensors | torch/_dynamo/repro/aoti.py:199-205 | the counting pass total equals the number of tensors the materialising pass produces |
| Codec.InputWriter.constructor | torch/_dynamo/repro/aoti.py:163 | a new writer keeps its save directory and holds no statements |
| Codec.InputWriter.SymInt | torch/_dynamo/repro/aoti.py:165-166 | appends the SymInt statement for the argument |
| Codec.InputWriter.Tensor | torch/_dynamo/repro/aoti.py:167-169 | appends the tensor statement |
| Codec.InputWriter.Const | torch/_dynamo/repro/aoti.py:170-171 | appends the constant statement |
| Codec.NopInputReader.constructor | torch/_dynamo/repro/aoti.py:199 | a new counting reader starts at zero |
| Codec.NopInputReader.Tensor | torch/_dynamo/repro/aoti.py:200 | each tensor statement adds one to the total |
| Codec.InputReader.constructor | torch/_dynamo/repro/aoti.py:203 | a new reader keeps its save directory and has no values and no ticks |
| Codec.InputReader.Tensor | torch/_dynamo/repro/aoti.py:204-205 | appends the tensor and ticks the progress bar once |
| Codec.InputReader.SymInt | torch/_dynamo/repro/aoti.py:204-205 | appends the plain integer (or bool) value, no tick |
| Codec.InputReader.Const | torch/_dynamo/repro/aoti.py:204-205 | appends None, no tick |
| Strings.StartsWith | torch/_dynamo/repro/aoti.py:228 | `str.startswith`; its use at the gate is characterised by Replay.CheckDevice |
| Strings.Contains | torch/_dynamo/repro/aoti.py:282 | the substring test `check_str in repr(e)`; characterised by Strings.ContainsIffOccurs |
| Strings.ContainsIffOccurs | torch/_dynamo/repro/aoti.py:282 | the substring test holds exactly when the filter occurs at some position of the repr |
| Strings.ContainsTransitive | torch/_dynamo/repro/aoti.py:282 | a text containing a string contains every substring of that string |
| Oracle.FirstRaised | torch/_dynamo/repro/aoti.py:275-280 | the attempt ends at the first step that raises; none raises exactly when compile, load and call all complete |
| Oracle.ModuleFails | torch/_dynamo/repro/aoti.py:273-284 | a clean attempt is not a failure; an Exception is a failure iff there is no check string or the check string occurs in its repr; an exception outside Exception escapes |
| Oracle.NarrowerFilterFailsLess | torch/_dynamo/repro/aoti.py:281-284 | a failure under a check string is also a failure with no filter and under any substring of it |
| Oracle.CompileCrashDecides | torch/_dynamo/repro/aoti.py:275-279 | after a compiler crash the verdict does not depend on what load or call would do |
| Oracle.KernelLaunchExample | torch/_dynamo/repro/aoti.py:281-284 | RuntimeError('kernel launch failed') fails under "kernel launch" and under no filter, and not under "segfault" |
| Replay.CommonReplay | torch/_dynamo/repro/aoti.py:183-214 | specification of repro_common (result and steps); its properties are Replay.VersionOnlyWarns, Replay.CommonStepOrder, Replay.CommonKeepsOrder and Replay.CommonIsSetupOnly |
| Replay.VersionOnlyWarns | torch/_dynamo/repro/aoti.py:185-197 | a missing or newer load_args version gives exactly one warning, followed directly by the counting pass, version 0 none, and the outcome of repro_common does not depend on the version |
| Replay.CommonStepOrder | torch/_dynamo/repro/aoti.py:199-212 | counting, then materialising, then the tuple, then export, then the hooks flag only after a successful export; each step occurs before any occurrence of the next |
| Replay.CommonKeepsOrder | torch/_dynamo/repro/aoti.py:203-208 | repro_common returns one argument per statement, decoded and in statement order |
| Replay.CommonIsSetupOnly | torch/_dynamo/repro/aoti.py:183-214 | repro_common never calls, compares or synchronises |
| Replay.CheckDevice | torch/_dynamo/repro/aoti.py:227-229 | the gate accepts exactly "cpu" and devices starting with "cuda"; anything else is RuntimeError("Unsupported device " + device) |
| Replay.DeviceGateExamples | torch/_dynamo/repro/aoti.py:227-229 | "cpu", "cuda", "cuda:1" pass; "tpu", "cpu:0", "cud" are rejected |
| Replay.RunAfterCommon | torch/_dynamo/repro/aoti.py:225-259 | specification of repro_run after repro_common: gate, compile, load, then the accuracy or crash check; its properties are Replay.CrashCheckSteps and the Replay.Run* lemmas |
| Replay.RunReplay | torch/_dynamo/repro/aoti.py:220-259 | specification of repro_run: repro_common's steps followed by Replay.RunAfterCommon's; its properties are Replay.RunGatesDeviceBeforeCompile, Replay.RunAccuracyBranch and Replay.RunCrashBranch |
| Replay.RunGatesDeviceBeforeCompile | torch/_dynamo/repro/aoti.py:222-233 | an unsupported device fails with the gate's error after export and never compiles; compilation happens only after export and the gate, with no compile step before the gate |
| Replay.TpuIsRejected | torch/_dynamo/repro/aoti.py:225-233 | run with device "tpu" fails with the unsupported-device error, having exported and without compiling |
| Replay.RunAccuracyBranch | torch/_dynamo/repro/aoti.py:237-247 | with a non-empty accuracy the models are compared, the compiled model is never called alone, and AccuracyError is raised exactly when they differ |
| Replay.CrashCheckSteps | torch/_dynamo/repro/aoti.py:248-259 | after compile and load, crash mode calls once and synchronises only when the call returned and some argument is a CUDA tensor; it ends normally iff the call and that synchronisation returned, and a raise of either propagates |
| Replay.CrashTraceShape | torch/_dynamo/repro/aoti.py:248-259 | the crash-mode steps contain one call, no comparison, and a synchronisation only when asked, after the call |
| Replay.RunCrashBranch | torch/_dynamo/repro/aoti.py:248-259 | with an empty accuracy the compiled model is called exactly once, synchronisation follows iff the call returned and a CUDA tensor is among the arguments, the run ends normally iff the call and that synchronisation returned, and the first of them to raise gives the error |
| Replay.MinifyReplay | torch/_dynamo/repro/aoti.py:262-300 | specification of repro_minify (result and steps); its properties are Replay.MinifyWiring |
| Replay.MinifyWiring | torch/_dynamo/repro/aoti.py:262-300 | the minifier runs iff export succeeded and the device passed, after the gate; it gets the exported module, the decoded args, the check string, the device and config patches the oracle compiles and loads with, compiler "aot_inductor" and the option knobs; a rejected device fails with the gate's error, otherwise minify fails iff the minifier raises; minify never compiles itself |
| Replay.CountingPass | torch/_dynamo/repro/aoti.py:199-200 | the counting reader's total is the number of tensor statements |
| Replay.MaterialisingPass | torch/_dynamo/repro/aoti.py:202-205 | the reader's values are the decoded statements and its ticks the number of tensor statements |
| Replay.ReproCommon | torch/_dynamo/repro/aoti.py:183-214 | repro_common produces exactly the result and steps of its specification |
| Replay.ReproGetArgs | torch/_dynamo/repro/aoti.py:217-219 | get_args returns what repro_common returns |
| Replay.NeedSync | torch/_dynamo/repro/aoti.py:249-254 | the scan finds a CUDA tensor iff one of the arguments is one |
| Replay.ReproRun | torch/_dynamo/repro/aoti.py:220-259 | repro_run produces exactly the result and steps of its specification |
| Replay.ReproMinify | torch/_dynamo/repro/aoti.py:262-300 | repro_minify produces exactly the result and steps of its specification |
| ReproScript.Join | torch/_dynamo/repro/aoti.py:160 | the joined path ends with the file name and starts with the directory; an empty directory gives the file name |
| ReproScript.Header | torch/_dynamo/repro/aoti.py:131-155 | the preamble comes first; stable output has no version line at all; otherwise the torch version and CUDA system info are present, the CUDA version iff torch.version has it, the git version iff torch.version has it |
| ReproScript.InputLines | torch/_dynamo/repro/aoti.py:175 | one script line per recorded statement, in order |
| ReproScript.ReproString | torch/_dynamo/repro/aoti.py:123-180 | specification of generate_compiler_repro_string; its properties are ReproScript.ReproStringErrors, ReproScript.ScriptReplaysInputs and ReproScript.ScriptLoadsSavedProgram |
| ReproScript.ReproStringErrors | torch/_dynamo/repro/aoti.py:159-173 | a failed export wins over a missing save directory, which wins over a failed save (its own exception), which wins over an unsupported argument; the script exists iff none of these happens |
| ReproScript.ScriptReplaysInputs | torch/_dynamo/repro/aoti.py:163-175 | the load_args statements of a generated script decode to the captured arguments |
| ReproScript.ScriptLoadsSavedProgram | torch/_dynamo/repro/aoti.py:160-179 | the script loads the program from the path it was saved to, then assigns the options |
| ReproScript.DefaultAccuracy | torch/_dynamo/repro/aoti.py:100-101 | a given accuracy is kept; none given becomes whether the compiler name contains "_accuracy"; shown by ReproScript.DefaultAccuracyExamples and Entry.CapturedAccuracyPicksBranch |
| ReproScript.DefaultAccuracyExamples | torch/_dynamo/repro/aoti.py:100-101 | with no accuracy given, "inductor_accuracy" gives True and "aot_inductor" gives False; a given accuracy is kept |
| ReproScript.Trailer | torch/_dynamo/repro/aoti.py:102-112 | the trailer is the main guard, the run_repro call, and the get_args hint with the same arguments but command "get_args" |
| ReproScript.SavedScript | torch/_dynamo/repro/aoti.py:78-112 | specification of what save_graph_repro writes; its properties are ReproScript.SavedScriptTrailer |
| ReproScript.SavedScriptTrailer | torch/_dynamo/repro/aoti.py:91-112 | a saved script is the generated script followed by the trailer whose call carries the capture's command, save directory, check string and defaulted accuracy; it fails iff generation fails |
| ReproScript.Sink.constructor | torch/_dynamo/repro/aoti.py:66 | a new buffer is empty |
| ReproScript.Sink.Write | torch/_dynamo/repro/aoti.py:91-112 | a write appends its lines |
| ReproScript.WriteInputs | torch/_dynamo/repro/aoti.py:163-173 | the writer loop records exactly what the encoding specifies, including the first unsupported argument's error |
| ReproScript.GenerateReproString | torch/_dynamo/repro/aoti.py:123-180 | the script built step by step is the one its specification gives |
| ReproScript.SaveGraphRepro | torch/_dynamo/repro/aoti.py:78-112 | on failure nothing is written; on success the file receives the script and the trailer, after its previous contents |
| ReproScript.MinifyScript | torch/_dynamo/repro/aoti.py:60-75 | specification of the script dump_to_minify saves; its properties are ReproScript.MinifyScriptShape |
| ReproScript.MinifyScriptShape | torch/_dynamo/repro/aoti.py:60-75 | a minifier dump always has a save directory under the checkpoints directory, loads from it and asks for "minify" with no check string |
| ReproScript.DumpToMinify | torch/_dynamo/repro/aoti.py:60-75 | fails iff saving the minify script fails, with its error; on success gives the minifier's checkpoints directory it prints and the buffer holding the saved minify script |
| Entry.NormaliseAccuracy | torch/_dynamo/repro/aoti.py:321-324 | True becomes "accuracy", False "", a string stays; characterised by Entry.AccuracyModeIffRequested |
| Entry.AccuracyModeIffRequested | torch/_dynamo/repro/aoti.py:321-324 | True gives "accuracy" and False ""; the normalised accuracy is non-empty iff accuracy is True or a non-empty string |
| Entry.ParserInput | torch/_dynamo/repro/aoti.py:420-424 | the parser reads `[command]` when argv has at most one entry, else argv[1:]; see Entry.ShortArgvUsesDefaultCommand |
| Entry.NamespaceAsWritten | torch/_dynamo/repro/aoti.py:342-418 | the namespace the parser builds as written, with no accuracy attribute; see Entry.FlagsOverrideDefaults and Entry.AsWrittenRunNeverChecks |
| Entry.Namespace | torch/_dynamo/repro/aoti.py:342-418 | (corrected namespace) the namespace as written plus `accuracy`, defaulting to run_repro's normalised accuracy; see Entry.FlagsOverrideDefaults |
| Entry.ShortArgvUsesDefaultCommand | torch/_dynamo/repro/aoti.py:420-424 | with at most one argv entry the script runs its default command with run_repro's save directory, device "cpu", no minify knobs, and check_str only for the commands defining it; an unknown default command is a parser error |
| Entry.FlagsOverrideDefaults | torch/_dynamo/repro/aoti.py:342-418 | explicit --save-dir, --no-save-dir, --device and --check-str win over the defaults |
| Entry.Dispatch | torch/_dynamo/repro/aoti.py:425-432 | the command table: minify, run and get_args go to their handlers, any other command is KeyError; see Entry.MinifierQueryHasNoHandler and Entry.GetArgsReturnsInputs |
| Entry.RunReproAsWritten | torch/_dynamo/repro/aoti.py:315-432 | run_repro as written; its properties are Entry.AsWrittenRunNeverChecks and Entry.AsWrittenAgreesBeforeAccuracy |
| Entry.RunReproSpec | torch/_dynamo/repro/aoti.py:315-432 | (corrected namespace) run_repro with the accuracy attribute; its properties are the Entry lemmas below |
| Entry.KwargWarnings | torch/_dynamo/repro/aoti.py:315-319 | one "Unrecognized kwarg" warning per unknown keyword, in order |
| Entry.KwargsOnlyWarn | torch/_dynamo/repro/aoti.py:315-319 | unknown keywords change neither the result nor any later step |
| Entry.MinifierQueryHasNoHandler | torch/_dynamo/repro/aoti.py:409-432 | minifier-query parses, then raises KeyError('minifier-query') before loading anything |
| Entry.GetArgsReturnsInputs | torch/_dynamo/repro/aoti.py:425-432 | get_args returns the exported module and the decoded arguments |
| Entry.AsWrittenRunNeverChecks | torch/_dynamo/repro/aoti.py:237 | as written, every run that gets past compile and load raises AttributeError on options.accuracy |
| Entry.DispatchIgnoresAccuracy | torch/_dynamo/repro/aoti.py:222-300 | the handlers' result and steps do not depend on `accuracy` unless a run gets past compile and load |
| Entry.AsWrittenAgreesBeforeAccuracy | torch/_dynamo/repro/aoti.py:237 | the corrected and as-written run_repro give the same result and steps for every command other than run, and for a run that stops before line 237 |
| Entry.CorrectedRunFollowsAccuracy | torch/_dynamo/repro/aoti.py:237-259 | (corrected namespace) a run reaching the check compares iff the normalised accuracy is non-empty (AccuracyError iff the models differ) and otherwise calls the model, failing iff the call or the synchronisation after it raises |
| Entry.TrailerReplaysCapture | torch/_dynamo/repro/aoti.py:104-107 | (corrected namespace) running a saved script with no arguments hands the trailer's command, save directory, accuracy and (for minify) check string to the handler |
| Entry.CapturedAccuracyPicksBranch | torch/_dynamo/repro/aoti.py:100-101 | (corrected namespace) a compiler whose name contains "_accuracy" replays in accuracy mode, any other in crash mode |
| Entry.MinifyDumpReplaysAsMinify | torch/_dynamo/repro/aoti.py:68-72 | a minifier dump run with no arguments minifies from the checkpoints directory with no check string |
| Entry.RunRepro | torch/_dynamo/repro/aoti.py:303-432 | (corrected namespace) run_repro produces exactly the result and steps of Entry.RunReproSpec |

## Left out

- The collaborators are parameters whose outcome is given: export, `torch.export.save`,
  `compile_fx_aot`, `aot_load`, the compiled artifact, `same_two_models` and the minifier. The
  `dump_compiler_graph_state` callback the minifier receives is named only through
  `compilerName`. `same_two_models` is a bool; its own raising is not modelled.
- Reader and writer internals live outside this file and are not part of this model: tensor
  storage on disk, inline constants and the exact statement text. One tensor statement is
  taken to load one storage, so the counting total and the progress-bar ticks are both the
  number of tensor statements.
- Script text: the header's imports and `generate_config_string` output, version strings,
  `repr` escaping, `textwrap.dedent`, and the newlines joining the writer lines. A script is a
  sequence of logical lines. `Codec.Decode` plays the Python interpreter executing those lines
  back.
- `print(subdir)`, `os.makedirs` and `helper_for_dump_minify` in `dump_to_minify`.
  `ReproScript.DumpToMinify` returns the directory it would print and the buffer text it
  would hand on.
- argparse tokenising, help text and `--help`; the parser's description; `tracing_mode`, which
  only appears in that description. The command line is taken as already split into its
  flags (`Entry.CommandLine`).
- Entry.NamespaceAsWritten: a flag given to a sub-command that lacks it is one refusal
  (`UnrecognizedArguments`); argparse's exit status and exact message are not modelled.
- Entry.NamespaceAsWritten: for run and get_args, the namespace has no `check_str` attribute;
  it is modelled as None because those commands never read it.
- `torch._inductor.config.generate_intermediate_hooks` is a single trace step
  (`EnableIntermediateHooks`); the global flag itself is not modelled.
- The `log.warning` text, logging configuration and `tqdm` display. Only the warnings and the
  progress-bar ticks are modelled.
- `config.repro_ignore_non_fp` and `only_fwd` are only passed to `same_two_models`.
- What the minifier does with the oracle: the delta-debugging search itself.
- `torch.cuda.synchronize` is a trace step with a given outcome (`World.sync`); the device
  faults it surfaces are not modelled beyond that outcome.
- Entry.RunRepro: follows the corrected namespace; at a run reaching line 237 it compares or
  calls where the code as written raises AttributeError. Entry.RunReproAsWritten is the code
  as written, and Entry.AsWrittenAgreesBeforeAccuracy shows the two agree everywhere else.
- Entry.TrailerReplaysCapture: holds of the corrected namespace; as written the trailer's
  accuracy reaches only the parser's help text (Entry.RunReproAsWritten).
- Entry.CapturedAccuracyPicksBranch: holds of the corrected namespace; as written no branch
  is reached, because line 237 raises AttributeError (Entry.AsWrittenRunNeverChecks).

## Findings

| source | as written | input that shows it | evidently intended | confidence | as-written member | corrected member |
|---|---|---|---|---|---|---|
| torch/_dynamo/repro/aoti.py:237 | `repro_run` reads `options.accuracy`, but no parser flag (lines 342-418) defines `accuracy`, and run_repro's normalised `accuracy` reaches only the help text | a saved script run with no arguments, command "run", device "cpu", where compile and load succeed: AttributeError "'Namespace' object has no attribute 'accuracy'" | the namespace carries `accuracy`, defaulting to run_repro's normalised accuracy, so the run compares models in accuracy mode and calls the model otherwise | not executed | Entry.AsWrittenRunNeverChecks | Entry.CorrectedRunFollowsAccuracy |
