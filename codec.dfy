/** The value codec: how the repro generator records each graph input as one tagged
    statement (InputWriter), and how the replayer reads those statements back, first with a
    counting reader (NopInputReader) and then with a materialising one (InputReader). */
module Codec {
  import opened Common

  datatype Device = Device(kind: string, index: Option<nat>)

  /** What a replayed tensor must reproduce exactly; its data is not modelled. */
  datatype TensorMeta = TensorMeta(shape: seq<int>, stride: seq<int>, dtype: string, device: Device)

  /** A runtime argument of the captured graph, by Python kind. */
  datatype Arg =
    | IntArg(i: int)
    | BoolArg(b: bool)          // bool is a subclass of int in Python
    | SymIntArg(hint: int)      // a torch.SymInt and the concrete value it was observed at
    | TensorArg(meta: TensorMeta)
    | NoneArg
    | OtherArg(text: string)    // any other kind; `text` is what str() gives for it

  datatype Kind = SymIntKind | TensorKind | ConstKind

  datatype Scalar = IntScalar(i: int) | BoolScalar(b: bool)

  /** One line of the generated `load_args` body, naming the placeholder it feeds. */
  datatype Stmt =
    | SymIntStmt(name: string, value: Scalar)
    | TensorStmt(name: string, meta: TensorMeta)
    | ConstStmt(name: string)

  /** The isinstance chain of the generator loop: int or SymInt, then Tensor, then None. */
  function Classify(arg: Arg): (k: Option<Kind>)
    ensures k.None? <==> arg.OtherArg?
  {
    match arg
    case IntArg(_) => Some(SymIntKind)
    case BoolArg(_) => Some(SymIntKind)
    case SymIntArg(_) => Some(SymIntKind)
    case TensorArg(_) => Some(TensorKind)
    case NoneArg => Some(ConstKind)
    case OtherArg(_) => None
  }

  function KindOf(s: Stmt): Kind
  {
    match s
    case SymIntStmt(_, _) => SymIntKind
    case TensorStmt(_, _) => TensorKind
    case ConstStmt(_) => ConstKind
  }

  /** The statement the writer appends for one accepted argument. A SymInt is recorded by
      its observed value; a constant carries no payload. */
  function EncodeArg(name: string, arg: Arg): (s: Stmt)
    requires Classify(arg).Some?
    ensures s.name == name && KindOf(s) == Classify(arg).value
    ensures arg.NoneArg? <==> s == ConstStmt(name)
  {
    match arg
    case IntArg(i) => SymIntStmt(name, IntScalar(i))
    case BoolArg(b) => SymIntStmt(name, BoolScalar(b))
    case SymIntArg(h) => SymIntStmt(name, IntScalar(h))
    case TensorArg(m) => TensorStmt(name, m)
    case NoneArg => ConstStmt(name)
  }

  /** The writer loop over the pairs zip(placeholders, args): it stops at the shorter of the
      two, and the first argument of an unsupported kind raises TypeError. */
  function EncodeInputs(names: seq<string>, args: seq<Arg>): (r: Result<seq<Stmt>>)
    decreases |args|
    ensures r.Ok? <==> forall i :: 0 <= i < Min(|names|, |args|) ==> Classify(args[i]).Some?
    ensures r.Ok? ==> |r.value| == Min(|names|, |args|)
    ensures r.Ok? ==> forall i :: 0 <= i < |r.value| ==>
      Classify(args[i]).Some? && r.value[i] == EncodeArg(names[i], args[i])
    ensures r.Err? ==> exists k :: (0 <= k < Min(|names|, |args|) && args[k].OtherArg? &&
      r.error == NotAnInput(args[k].text) &&
      forall j :: 0 <= j < k ==> Classify(args[j]).Some?)
  {
    if |names| == 0 || |args| == 0 then Ok([])
    else if Classify(args[0]).None? then Err(NotAnInput(args[0].text))
    else
      match EncodeInputs(names[1..], args[1..])
      case Ok(rest) =>
        assert forall i :: 1 <= i < Min(|names|, |args|) ==> args[1..][i - 1] == args[i];
        Ok([EncodeArg(names[0], args[0])] + rest)
      case Err(e) =>
        var k :| 0 <= k < Min(|names| - 1, |args| - 1) && args[1..][k].OtherArg? &&
          e == NotAnInput(args[1..][k].text) &&
          forall j :: 0 <= j < k ==> Classify(args[1..][j]).Some?;
        assert args[k + 1] == args[1..][k];
        assert forall j :: 1 <= j < k + 1 ==> args[j] == args[1..][j - 1];
        Err(e)
  }

  /** The value the reader produces for one statement: a recorded SymInt comes back as
      the plain integer it was observed at, with no symbol attached. */
  function DecodeStmt(s: Stmt): Arg
  {
    match s
    case SymIntStmt(_, IntScalar(i)) => IntArg(i)
    case SymIntStmt(_, BoolScalar(b)) => BoolArg(b)
    case TensorStmt(_, m) => TensorArg(m)
    case ConstStmt(_) => NoneArg
  }

  /** The values the materialising reader has appended after running `stmts` in order. */
  function Decode(stmts: seq<Stmt>): (args: seq<Arg>)
    ensures |args| == |stmts|
    ensures forall i :: 0 <= i < |stmts| ==> args[i] == DecodeStmt(stmts[i])
  {
    if stmts == [] then []
    else Decode(stmts[..|stmts| - 1]) + [DecodeStmt(stmts[|stmts| - 1])]
  }

  /** The number of storages the statements load: one per tensor statement. */
  function CountTensors(stmts: seq<Stmt>): nat
  {
    if stmts == [] then 0
    else CountTensors(stmts[..|stmts| - 1]) + (if stmts[|stmts| - 1].TensorStmt? then 1 else 0)
  }

  /** What replay hands back for a captured argument: a SymInt loses its symbol. */
  function Concretise(arg: Arg): Arg
  {
    if arg.SymIntArg? then IntArg(arg.hint) else arg
  }

  /** Round trip: decoding what the writer recorded gives back every captured argument in
      placeholder order, tensors with identical shape, stride, dtype and device, SymInts as
      their concrete values and None as None. */
  lemma {:induction false} DecodeEncode(names: seq<string>, args: seq<Arg>)
    requires EncodeInputs(names, args).Ok?
    ensures |Decode(EncodeInputs(names, args).value)| == Min(|names|, |args|)
    ensures forall i :: 0 <= i < Min(|names|, |args|) ==>
      Decode(EncodeInputs(names, args).value)[i] == Concretise(args[i])
  {
    var stmts := EncodeInputs(names, args).value;
    forall i | 0 <= i < Min(|names|, |args|)
      ensures Decode(stmts)[i] == Concretise(args[i])
    {
      assert stmts[i] == EncodeArg(names[i], args[i]);
    }
  }

  /** A graph with one (4, 4) tensor input and one SymInt input "s0" observed at 4 replays
      as two values: the tensor with shape (4, 4), then the plain integer 4. */
  lemma TensorAndSymIntRoundTrip(meta: TensorMeta)
    requires meta.shape == [4, 4]
    ensures var r := EncodeInputs(["arg0_1", "s0"], [TensorArg(meta), SymIntArg(4)]);
      r.Ok? && |Decode(r.value)| == 2 &&
      Decode(r.value)[0].TensorArg? && Decode(r.value)[0].meta.shape == [4, 4] &&
      Decode(r.value)[1] == IntArg(4)
  {
    DecodeEncode(["arg0_1", "s0"], [TensorArg(meta), SymIntArg(4)]);
  }

  /** The two reader passes agree: counting sees one storage per tensor value the
      materialising pass produces. */
  lemma {:induction false} CountMatchesTensors(stmts: seq<Stmt>)
    ensures CountTensors(stmts) == |set i | 0 <= i < |stmts| && Decode(stmts)[i].TensorArg?|
    decreases |stmts|
  {
    var n := |stmts|;
    if n > 0 {
      var init := stmts[..n - 1];
      CountMatchesTensors(init);
      var before := set i | 0 <= i < n - 1 && Decode(init)[i].TensorArg?;
      var after := set i | 0 <= i < n && Decode(stmts)[i].TensorArg?;
      assert forall i :: 0 <= i < n - 1 ==> Decode(stmts)[i] == Decode(init)[i];
      if stmts[n - 1].TensorStmt? {
        assert after == before + {n - 1};
      } else {
        assert after == before;
      }
    }
  }

  /** The writer: collects one statement per call, in call order. */
  class InputWriter {
    const saveDir: Option<string>
    var lines: seq<Stmt>

    constructor (saveDir: Option<string>)
      ensures this.saveDir == saveDir && lines == []
    {
      this.saveDir := saveDir;
      lines := [];
    }

    /** writer.symint(name, value): a SymInt is recorded by its hint. */
    method SymInt(name: string, arg: Arg)
      requires Classify(arg) == Some(SymIntKind)
      modifies this
      ensures lines == old(lines) + [EncodeArg(name, arg)]
    {
      var value := match arg
        case SymIntArg(h) => IntScalar(h)
        case BoolArg(b) => BoolScalar(b)
        case IntArg(i) => IntScalar(i);
      lines := lines + [SymIntStmt(name, value)];
    }

    method Tensor(name: string, meta: TensorMeta)
      modifies this
      ensures lines == old(lines) + [TensorStmt(name, meta)]
    {
      lines := lines + [TensorStmt(name, meta)];
    }

    method Const(name: string)
      modifies this
      ensures lines == old(lines) + [ConstStmt(name)]
    {
      lines := lines + [ConstStmt(name)];
    }
  }

  /** The counting reader: tallies the storages `load_args` would load and builds nothing. */
  class NopInputReader {
    var total: nat

    constructor ()
      ensures total == 0
    {
      total := 0;
    }

    method Tensor(meta: TensorMeta)
      modifies this
      ensures total == old(total) + 1
    {
      total := total + 1;
    }

    method SymInt(value: Scalar)
    {
    }

    method Const(name: string)
    {
    }
  }

  /** The materialising reader: appends one value per statement and ticks the progress bar
      once per storage it loads. */
  class InputReader {
    const saveDir: Option<string>
    var args: seq<Arg>
    var ticks: nat

    constructor (saveDir: Option<string>)
      ensures this.saveDir == saveDir && args == [] && ticks == 0
    {
      this.saveDir := saveDir;
      args := [];
      ticks := 0;
    }

    method Tensor(meta: TensorMeta)
      modifies this
      ensures args == old(args) + [TensorArg(meta)] && ticks == old(ticks) + 1
    {
      args := args + [TensorArg(meta)];
      ticks := ticks + 1;
    }

    method SymInt(value: Scalar)
      modifies this
      ensures args == old(args) + [DecodeStmt(SymIntStmt("", value))] && ticks == old(ticks)
    {
      var v := match value
        case IntScalar(i) => IntArg(i)
        case BoolScalar(b) => BoolArg(b);
      args := args + [v];
    }

    method Const(name: string)
      modifies this
      ensures args == old(args) + [NoneArg] && ticks == old(ticks)
    {
      args := args + [NoneArg];
    }
  }
}
