/**
 * function/bidding_function_sapi_adapter: the sandboxee's side of the
 * sandbox protocol. The process holds a single slot: empty at start, it
 * receives one compiled function of one kind, after which every further
 * compile is refused and batches run against that function.
 */
module SandboxAdapter {
  import opened Status
  import opened FunctionInterface
  import opened StatusEncoding
  import BF = BiddingFunction

  // ---------------------------------------------------------------------
  // Opcodes (SandboxedFunctionOp)

  const MSG_EXIT_TAG: int := 0x104
  const COMPILE_TAG: int := 0x1001
  const BATCH_EXECUTE_TAG: int := 0x1002

  datatype SandboxedFunctionOp = MsgExit | Compile | BatchExecute

  function OpCode(op: SandboxedFunctionOp): int {
    match op
    case MsgExit => MSG_EXIT_TAG
    case Compile => COMPILE_TAG
    case BatchExecute => BATCH_EXECUTE_TAG
  }

  /** The operation a received tag names, if any. */
  function DecodeOp(tag: int): (r: Option<SandboxedFunctionOp>)
    ensures r.Some? ==> OpCode(r.value) == tag
    ensures r.None? ==> forall op :: OpCode(op) != tag
  {
    if tag == MSG_EXIT_TAG then Some(MsgExit)
    else if tag == COMPILE_TAG then Some(Compile)
    else if tag == BATCH_EXECUTE_TAG then Some(BatchExecute)
    else None
  }

  /** The opcodes are distinct, so every operation is recognised as itself. */
  lemma OpCodesDistinct(a: SandboxedFunctionOp, b: SandboxedFunctionOp)
    ensures OpCode(a) == OpCode(b) <==> a == b
    ensures DecodeOp(OpCode(a)) == Some(a)
  {
  }

  // ---------------------------------------------------------------------
  // Messages crossing the boundary

  datatype FunctionType = FunctionTypeUnspecified | FledgeBiddingFunction | FledgeAdScoringFunction

  /** BiddingFunctionSpec::FunctionType_Name. */
  function FunctionTypeName(t: FunctionType): string {
    match t
    case FunctionTypeUnspecified => "FUNCTION_TYPE_UNSPECIFIED"
    case FledgeBiddingFunction => "FLEDGE_BIDDING_FUNCTION"
    case FledgeAdScoringFunction => "FLEDGE_AD_SCORING_FUNCTION"
  }

  /** BiddingFunctionSpec: what the host asks the sandboxee to compile. */
  datatype BiddingFunctionSpec = BiddingFunctionSpec(
    biddingFunctionSource: string,
    functionType: FunctionType,
    flattenFunctionArguments: bool)

  /** Packing into and unpacking from google.protobuf.Any for one message type. */
  datatype Codec = Codec(pack: BF.Message -> Any, unpack: Any -> Option<BF.Message>)

  /** One template instantiation: its engine and its input and output message types. */
  datatype Instantiation = Instantiation(engine: BF.Engine, inputs: Codec, outputs: Codec)

  /** Both instantiations the sandboxee is built with. */
  datatype Runtime = Runtime(bidding: Instantiation, adScoring: Instantiation)

  /** Each instantiation's engine is the one for its kind. */
  predicate WellFormedRuntime(rt: Runtime) {
    rt.bidding.engine.kind == BF.Bidding && rt.adScoring.engine.kind == BF.AdScoring
  }

  function InstantiationFor(rt: Runtime, t: FunctionType): Instantiation
    requires !t.FunctionTypeUnspecified?
  {
    if t.FledgeBiddingFunction? then rt.bidding else rt.adScoring
  }

  /** Unpacks every Any, in order; None when any one of them does not unpack. */
  function UnpackAll(codec: Codec, anys: seq<Any>): (r: Option<seq<BF.Message>>)
    ensures r.Some? <==> forall i :: 0 <= i < |anys| ==> codec.unpack(anys[i]).Some?
    ensures r.Some? ==> |r.value| == |anys|
    ensures r.Some? ==> forall i :: 0 <= i < |anys| ==> r.value[i] == codec.unpack(anys[i]).value
  {
    if anys == [] then Some([])
    else match (codec.unpack(anys[0]), UnpackAll(codec, anys[1..]))
      case (Some(m), Some(ms)) => Some([m] + ms)
      case (None, _) => None
      case (_, None) =>
        assert forall i :: 0 <= i < |anys[1..]| ==> anys[1..][i] == anys[i + 1];
        None
  }

  /** Packs every message, in order. */
  function PackAll(codec: Codec, messages: seq<BF.Message>): (r: seq<Any>)
    ensures |r| == |messages|
    ensures forall i :: 0 <= i < |messages| ==> r[i] == codec.pack(messages[i])
  {
    if messages == [] then [] else [codec.pack(messages[0])] + PackAll(codec, messages[1..])
  }

  // ---------------------------------------------------------------------
  // The slot, as a value

  /** `function_type` and `single_bidding_function`. */
  datatype WorkerState = WorkerState(functionType: FunctionType, compiled: Option<BF.CompiledFunction>)

  const EmptySlot: WorkerState := WorkerState(FunctionTypeUnspecified, None)

  /** A type is recorded exactly when a function is stored. */
  predicate ValidState(w: WorkerState) {
    w.functionType.FunctionTypeUnspecified? <==> w.compiled.None?
  }

  datatype CompileOutcome = CompileOutcome(status: Status, state: WorkerState)

  const ALREADY_INITIALIZED: string := "Function has already been initialized within the sandbox."

  /** Function::Create for the instantiation a known type selects, with the spec's options. */
  function CreateFor(rt: Runtime, spec: BiddingFunctionSpec): Result<BF.CompiledFunction>
    requires !spec.functionType.FunctionTypeUnspecified?
  {
    BF.CreateResult(InstantiationFor(rt, spec.functionType).engine, spec.biddingFunctionSource,
                    FunctionOptions(spec.flattenFunctionArguments))
  }

  /**
   * CompileFunction: an unknown type is refused; otherwise the function is
   * created first, and only a successful creation into an empty slot is
   * stored. Every failure leaves the slot as it was; an occupied slot is
   * never changed.
   */
  function CompileStep(rt: Runtime, w: WorkerState, spec: BiddingFunctionSpec): (r: CompileOutcome)
    ensures ValidState(w) ==> ValidState(r.state)
    ensures r.status.IsFailure() ==> r.state == w
    ensures !w.functionType.FunctionTypeUnspecified? ==> r.state == w && r.status.IsFailure()
    ensures spec.functionType.FunctionTypeUnspecified? ==>
              r.status == InvalidArgumentError("Unexpected function type: " + FunctionTypeName(spec.functionType))
    // Creation comes first: its error is returned as it is, whatever the slot holds.
    ensures !spec.functionType.FunctionTypeUnspecified? && CreateFor(rt, spec).Err? ==>
              r == CompileOutcome(CreateFor(rt, spec).status, w)
    ensures !spec.functionType.FunctionTypeUnspecified? && CreateFor(rt, spec).Ok? &&
            !w.functionType.FunctionTypeUnspecified? ==>
              r == CompileOutcome(FailedPreconditionError(ALREADY_INITIALIZED), w)
    ensures r.status.IsOk() <==>
              w.functionType.FunctionTypeUnspecified? && !spec.functionType.FunctionTypeUnspecified? &&
              CreateFor(rt, spec).Ok?
    // A success stores exactly the function created from the spec's source.
    ensures r.status.IsOk() ==>
              r.status == OkStatus &&
              r.state == WorkerState(spec.functionType, Some(CreateFor(rt, spec).value))
  {
    if spec.functionType.FunctionTypeUnspecified? then
      CompileOutcome(InvalidArgumentError("Unexpected function type: " + FunctionTypeName(spec.functionType)), w)
    else
      match CreateFor(rt, spec)
      case Err(s) =>
        CompileOutcome(s, w)
      case Ok(f) =>
        if !w.functionType.FunctionTypeUnspecified? then
          CompileOutcome(FailedPreconditionError(ALREADY_INITIALIZED), w)
        else
          CompileOutcome(OkStatus, WorkerState(spec.functionType, Some(f)))
  }

  /** Statuses of a sequence of compile requests, each seeing the slot the previous left. */
  function CompileStatuses(rt: Runtime, w: WorkerState, specs: seq<BiddingFunctionSpec>): (r: seq<Status>)
    ensures |r| == |specs|
    decreases |specs|
  {
    if specs == [] then []
    else
      var c := CompileStep(rt, w, specs[0]);
      [c.status] + CompileStatuses(rt, c.state, specs[1..])
  }

  /**
   * Each sandbox runs exactly one function: across any sequence of
   * compile requests at most one succeeds, and none does once the slot
   * is occupied.
   */
  lemma {:induction false} AtMostOneCompileSucceeds(rt: Runtime, w: WorkerState, specs: seq<BiddingFunctionSpec>)
    ensures !w.functionType.FunctionTypeUnspecified? ==>
              forall i :: 0 <= i < |specs| ==> CompileStatuses(rt, w, specs)[i].IsFailure()
    ensures forall i, j :: 0 <= i < j < |specs| ==>
              !(CompileStatuses(rt, w, specs)[i].IsOk() && CompileStatuses(rt, w, specs)[j].IsOk())
    decreases |specs|
  {
    if specs != [] {
      var c := CompileStep(rt, w, specs[0]);
      var rest := CompileStatuses(rt, c.state, specs[1..]);
      var all := CompileStatuses(rt, w, specs);
      assert all == [c.status] + rest;
      AtMostOneCompileSucceeds(rt, c.state, specs[1..]);
      forall i | 1 <= i < |specs| ensures all[i] == rest[i - 1] { }
      if c.status.IsOk() {
        assert !c.state.functionType.FunctionTypeUnspecified?;
      }
    }
  }

  /**
   * BatchExecuteFunction: refused before a compile; otherwise every input
   * is unpacked before anything runs, the batch runs against the stored
   * function, and the outputs are packed in result order.
   */
  function ExecuteStep(rt: Runtime, w: WorkerState, inputs: seq<Any>): (r: Result<seq<Any>>)
    requires ValidState(w)
    ensures r.Err? ==> r.status.IsFailure()
  {
    if w.functionType.FunctionTypeUnspecified? then
      Err(FailedPreconditionError("Function has not been initialized within the sandbox."))
    else
      var inst := InstantiationFor(rt, w.functionType);
      match UnpackAll(inst.inputs, inputs)
      case None => Err(InvalidArgumentError("Unable to unpack inputs"))
      case Some(messages) =>
        var outputs :- BF.BatchResult(inst.engine, w.compiled.value, messages);
        Ok(PackAll(inst.outputs, outputs))
  }

  /** Executing before any compile fails with FAILED_PRECONDITION. */
  lemma ExecuteBeforeCompileFails(rt: Runtime, inputs: seq<Any>)
    ensures ExecuteStep(rt, EmptySlot, inputs).Err?
    ensures ExecuteStep(rt, EmptySlot, inputs).status.code == FAILED_PRECONDITION
  {
  }

  /**
   * An input that does not unpack fails the batch with INVALID_ARGUMENT
   * before any invocation: the outcome does not depend on the engine.
   */
  lemma UnpackFailureStopsBeforeInvocation(rt: Runtime, w: WorkerState, inputs: seq<Any>, k: int)
    requires ValidState(w) && !w.functionType.FunctionTypeUnspecified?
    requires 0 <= k < |inputs| && InstantiationFor(rt, w.functionType).inputs.unpack(inputs[k]).None?
    ensures ExecuteStep(rt, w, inputs) == Err(InvalidArgumentError("Unable to unpack inputs"))
  {
  }

  /**
   * A successful batch returns one packed output per input, in input
   * order: output i is the packed result of invoking the stored function
   * on unpacked input i.
   */
  lemma ExecutePreservesOrder(rt: Runtime, w: WorkerState, inputs: seq<Any>)
    requires ValidState(w) && !w.functionType.FunctionTypeUnspecified?
    requires ExecuteStep(rt, w, inputs).Ok?
    ensures var inst := InstantiationFor(rt, w.functionType);
            var messages := UnpackAll(inst.inputs, inputs);
            messages.Some? &&
            BF.BatchResult(inst.engine, w.compiled.value, messages.value).Ok? &&
            |ExecuteStep(rt, w, inputs).value| == |inputs| &&
            forall i :: 0 <= i < |inputs| ==>
              ExecuteStep(rt, w, inputs).value[i] ==
                inst.outputs.pack(BF.BatchResult(inst.engine, w.compiled.value, messages.value).value[i])
  {
    var inst := InstantiationFor(rt, w.functionType);
    var messages := UnpackAll(inst.inputs, inputs);
    BF.BatchInvokeContract(inst.engine, w.compiled.value, messages.value);
  }

  // ---------------------------------------------------------------------
  // The code, step by step

  /**
   * The unpack loop of DoBatchExecuteFunction (inputs, in the sandboxee)
   * and of SapiBiddingFunction::BatchInvoke (outputs, on the host).
   */
  method UnpackMessages(codec: Codec, anys: seq<Any>) returns (r: Option<seq<BF.Message>>)
    ensures r == UnpackAll(codec, anys)
  {
    var messages: seq<BF.Message> := [];
    for i := 0 to |anys|
      invariant |messages| == i
      invariant forall j :: 0 <= j < i ==> codec.unpack(anys[j]).Some?
      invariant forall j :: 0 <= j < i ==> messages[j] == codec.unpack(anys[j]).value
    {
      var unpacked := codec.unpack(anys[i]);
      if unpacked.None? {
        return None;
      }
      messages := messages + [unpacked.value];
    }
    assert UnpackAll(codec, anys).value == messages;
    r := Some(messages);
  }

  /**
   * GetFunctionOutputs (outputs, in the sandboxee) and
   * GetBatchedInvocationInputs (inputs, on the host): packs every message
   * in order.
   */
  method PackMessages(codec: Codec, outputs: seq<BF.Message>) returns (r: seq<Any>)
    ensures r == PackAll(codec, outputs)
  {
    r := [];
    for i := 0 to |outputs|
      invariant r == PackAll(codec, outputs[..i])
    {
      PackAllAppend(codec, outputs[..i], outputs[i]);
      assert outputs[..i + 1] == outputs[..i] + [outputs[i]];
      r := r + [codec.pack(outputs[i])];
    }
    assert outputs[..|outputs|] == outputs;
  }

  lemma PackAllAppend(codec: Codec, messages: seq<BF.Message>, m: BF.Message)
    ensures PackAll(codec, messages + [m]) == PackAll(codec, messages) + [codec.pack(m)]
  {
    assert |PackAll(codec, messages + [m])| == |PackAll(codec, messages) + [codec.pack(m)]|;
  }

  /** The sandboxee process: its runtime and the process-wide slot. */
  class Worker {
    const runtime: Runtime
    var functionType: FunctionType
    var compiled: Option<BF.CompiledFunction>

    function State(): WorkerState
      reads this
    {
      WorkerState(functionType, compiled)
    }

    ghost predicate Valid()
      reads this
    {
      ValidState(State())
    }

    /** The slot starts empty. */
    constructor (rt: Runtime)
      ensures runtime == rt
      ensures State() == EmptySlot && Valid()
    {
      runtime := rt;
      functionType := FunctionTypeUnspecified;
      compiled := None;
    }

    /** CompileFunction / DoCompileFunction. */
    method CompileFunction(spec: BiddingFunctionSpec) returns (s: Status)
      requires Valid()
      modifies this
      ensures Valid()
      ensures CompileOutcome(s, State()) == CompileStep(runtime, old(State()), spec)
    {
      if spec.functionType.FunctionTypeUnspecified? {
        return InvalidArgumentError("Unexpected function type: " + FunctionTypeName(spec.functionType));
      }
      var engine := InstantiationFor(runtime, spec.functionType).engine;
      var created := BF.Create(engine, spec.biddingFunctionSource, FunctionOptions(spec.flattenFunctionArguments));
      if created.Err? {
        return created.status;
      }
      if !functionType.FunctionTypeUnspecified? {
        return FailedPreconditionError(ALREADY_INITIALIZED);
      }
      compiled := Some(created.value);
      functionType := spec.functionType;
      s := OkStatus;
    }

    /** BatchExecuteFunction / DoBatchExecuteFunction. */
    method BatchExecuteFunction(inputs: seq<Any>) returns (r: Result<seq<Any>>)
      requires Valid()
      ensures r == ExecuteStep(runtime, State(), inputs)
    {
      if functionType.FunctionTypeUnspecified? {
        return Err(FailedPreconditionError("Function has not been initialized within the sandbox."));
      }
      var inst := InstantiationFor(runtime, functionType);
      var messages := UnpackMessages(inst.inputs, inputs);
      if messages.None? {
        return Err(InvalidArgumentError("Unable to unpack inputs"));
      }
      var outputs :- BF.BatchInvoke(inst.engine, compiled.value, messages.value);
      var packed := PackMessages(inst.outputs, outputs);
      r := Ok(packed);
    }
  }
}
