/** Values shared by every part of the AOTInductor repro harness model. */
module Common {

  datatype Option<+T> = None | Some(value: T)

  /** An exception as the harness sees it: the text `repr(e)` gives, and whether its class
      derives from `Exception` (KeyboardInterrupt and SystemExit do not). */
  datatype Exc = Exc(repr: string, isException: bool)

  /** What one call into a collaborator the harness cannot see (export, the AOT compiler,
      the loader, the compiled artifact, the minifier) did: return, or raise. */
  datatype Outcome = Completed | Raised(exc: Exc)

  /** The `accuracy` argument of `run_repro` and `save_graph_repro`: a bool or a mode string. */
  datatype AccuracyArg = Flag(on: bool) | Mode(text: string)

  /** Every way a replay or a capture can end with an exception. */
  datatype Error =
    | Uncaught(exc: Exc)                // raised by a collaborator and propagated unchanged
    | UnsupportedDevice(device: string) // RuntimeError from the device gate
    | BadAccuracy                       // AccuracyError after a failed comparison
    | NotAnInput(text: string)          // TypeError for an argument of an unsupported kind
    | NoSaveDir                         // TypeError from os.path.join(None, ...)
    | CompiledIsString                  // the assertion that aot_load did not hand back a str
    | MissingAttribute(name: string)    // AttributeError reading an option the parser never set
    | BadCommand(word: string)          // argparse refuses the sub-command (it exits)
    | UnrecognizedArguments(command: string) // argparse refuses a flag the sub-command lacks
    | NoHandler(command: string)        // KeyError from the command table

  datatype Result<+T> = Ok(value: T) | Err(error: Error)

  /** The text the exception for `e` carries where the harness fixes it. */
  function Message(e: Error): string
  {
    match e
    case Uncaught(x) => x.repr
    case UnsupportedDevice(d) => "Unsupported device " + d
    case BadAccuracy => "Bad accuracy detected"
    case NotAnInput(t) => "arg is neither SymInt/int nor torch.Tensor, " + t
    case NoSaveDir => "expected str, bytes or os.PathLike object, not NoneType"
    case CompiledIsString => ""
    case MissingAttribute(n) => "'Namespace' object has no attribute '" + n + "'"
    case BadCommand(w) => "argument command: invalid choice: '" + w + "'"
    case UnrecognizedArguments(_) => "unrecognized arguments"
    case NoHandler(c) => "'" + c + "'"
  }

  function Min(a: int, b: int): int
  {
    if a <= b then a else b
  }
}
