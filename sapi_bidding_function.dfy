/**
 * function/sapi_bidding_function: the host's stub for a bidding or scoring
 * function that runs in its own sandboxee. Creating one starts a sandbox
 * and asks it to compile the script under a wall-time limit; invoking one
 * sends the packed inputs and unpacks the outputs the sandboxee returns,
 * again under a limit that is disarmed afterwards.
 */
module SapiBiddingFunction {
  import opened Status
  import opened StatusEncoding
  import opened FunctionInterface
  import opened SandboxAdapter
  import opened Comms
  import opened SandboxMain
  import BF = BiddingFunction

  /** kCompileTimeLimit, in seconds. */
  const COMPILE_TIME_LIMIT: nat := 5
  /** The default execute_duration_limit_, in seconds. */
  const EXECUTE_DURATION_LIMIT: nat := 1
  /** absl::ZeroDuration(): the limit is disarmed. */
  const NO_TIME_LIMIT: nat := 0

  /** What ::sapi::Sandbox reports when a limit is set on a sandboxee that is not running. */
  const SandboxNotActive: Status := UnavailableError("Sandbox not active")

  // ---------------------------------------------------------------------
  // The specification the host sends

  /** GetFunctionType<Input>: the input message type decides the function type. */
  function GetFunctionType(kind: BF.FunctionKind): (t: FunctionType)
    ensures !t.FunctionTypeUnspecified?
    ensures t.FledgeBiddingFunction? <==> kind == BF.Bidding
  {
    match kind
    case Bidding => FledgeBiddingFunction
    case AdScoring => FledgeAdScoringFunction
  }

  /** GetBiddingFunctionSpec: source, type and the flattening option, nothing else. */
  function GetBiddingFunctionSpec(kind: BF.FunctionKind, source: string, options: FunctionOptions)
    : (spec: BiddingFunctionSpec)
    ensures spec.biddingFunctionSource == source
    ensures spec.functionType == GetFunctionType(kind)
    ensures FunctionOptions(spec.flattenFunctionArguments) == options
  {
    BiddingFunctionSpec(source, GetFunctionType(kind), options.flattenFunctionArguments)
  }

  /**
   * A specification built on the host for one kind is compiled in the
   * sandboxee by the engine of that same kind.
   */
  lemma SpecSelectsEngineOfKind(rt: Runtime, kind: BF.FunctionKind, source: string, options: FunctionOptions)
    requires WellFormedRuntime(rt)
    ensures InstantiationFor(rt, GetBiddingFunctionSpec(kind, source, options).functionType).engine.kind == kind
  {
  }

  // ---------------------------------------------------------------------
  // The two exchanges, on a channel value

  /** The result of an exchange and the channel after it. */
  datatype Exchange<T> = Exchange(result: T, channel: Channel)

  /**
   * Sandbox::CompileFunction: the compile tag, then the spec, then the
   * status the sandboxee answers with. Each failed step ends the exchange
   * with INTERNAL and sends or reads nothing further.
   */
  function CompileExchange(ch: Channel, spec: BiddingFunctionSpec): (r: Exchange<Status>)
    ensures ch.capacity == 0 ==> r == Exchange(InternalError("SendTLV failed"), ch)
    ensures ch.capacity == 1 ==>
              r == Exchange(InternalError("SendProtoBuf failed"), Channel(ch.inbox, ch.outbox + [TagFrame(COMPILE_TAG)], 0))
    ensures ch.capacity >= 2 ==>
              r.channel.outbox == ch.outbox + [TagFrame(COMPILE_TAG), SpecFrame(spec)]
    ensures ch.capacity >= 2 && ch.inbox != [] && ch.inbox[0].StatusFrame? ==>
              r.result == ch.inbox[0].status && r.channel.inbox == ch.inbox[1..]
    ensures ch.capacity >= 2 && (ch.inbox == [] || !ch.inbox[0].StatusFrame?) ==>
              r.result == InternalError("RecvStatus failed")
  {
    var tag := Send(ch, TagFrame(COMPILE_TAG));
    if !tag.ok then Exchange(InternalError("SendTLV failed"), tag.channel)
    else
      var msg := Send(tag.channel, SpecFrame(spec));
      if !msg.ok then Exchange(InternalError("SendProtoBuf failed"), msg.channel)
      else
        var reply := Receive(msg.channel);
        if reply.frame.Some? && reply.frame.value.StatusFrame? then
          Exchange(reply.frame.value.status, reply.channel)
        else
          Exchange(InternalError("RecvStatus failed"), reply.channel)
  }

  /** The frames left after one receive: a receive on an exhausted channel takes nothing. */
  function Drop1(frames: seq<Frame>): seq<Frame> {
    if frames == [] then [] else frames[1..]
  }

  /**
   * Sandbox::BatchExecute: the batch tag, then the packed inputs, then the
   * status; a non-OK status is the result as it is, and only after an OK
   * status are the outputs read.
   */
  function BatchExecuteExchange(ch: Channel, inputs: seq<Any>): (r: Exchange<Result<seq<Any>>>)
    ensures ch.capacity == 0 ==> r == Exchange(Err(InternalError("SendTLV failed")), ch)
    ensures ch.capacity == 1 ==>
              r == Exchange(Err(InternalError("SendProtoBuf failed")),
                            Channel(ch.inbox, ch.outbox + [TagFrame(BATCH_EXECUTE_TAG)], 0))
    ensures ch.capacity >= 2 ==>
              r.channel.outbox == ch.outbox + [TagFrame(BATCH_EXECUTE_TAG), InputsFrame(inputs)]
    ensures ch.capacity >= 2 && (ch.inbox == [] || !ch.inbox[0].StatusFrame?) ==>
              r.result == Err(InternalError("RecvStatus failed")) && r.channel.inbox == Drop1(ch.inbox)
    ensures ch.capacity >= 2 && ch.inbox != [] && ch.inbox[0].StatusFrame? && ch.inbox[0].status.IsFailure() ==>
              r.result == Err(ch.inbox[0].status) && r.channel.inbox == ch.inbox[1..]
    ensures ch.capacity >= 2 && ch.inbox != [] && ch.inbox[0].StatusFrame? && ch.inbox[0].status.IsOk() ==>
              (if |ch.inbox| >= 2 && ch.inbox[1].OutputsFrame?
               then r.result == Ok(ch.inbox[1].outputs)
               else r.result == Err(InternalError("RecvProtoBuf failed"))) &&
              r.channel.inbox == Drop1(ch.inbox[1..])
    ensures r.result.Ok? ==> |ch.inbox| >= 2 && ch.inbox[0].StatusFrame? && ch.inbox[0].status.IsOk()
    ensures r.result.Ok? ==> ch.inbox[1] == OutputsFrame(r.result.value)
    ensures r.result.Err? ==> r.result.status.IsFailure()
  {
    var tag := Send(ch, TagFrame(BATCH_EXECUTE_TAG));
    if !tag.ok then Exchange(Err(InternalError("SendTLV failed")), tag.channel)
    else
      var msg := Send(tag.channel, InputsFrame(inputs));
      if !msg.ok then Exchange(Err(InternalError("SendProtoBuf failed")), msg.channel)
      else
        var reply := Receive(msg.channel);
        if !(reply.frame.Some? && reply.frame.value.StatusFrame?) then
          Exchange(Err(InternalError("RecvStatus failed")), reply.channel)
        else if reply.frame.value.status.IsFailure() then
          Exchange(Err(reply.frame.value.status), reply.channel)
        else
          var outputs := Receive(reply.channel);
          if outputs.frame.Some? && outputs.frame.value.OutputsFrame? then
            Exchange(Ok(outputs.frame.value.outputs), outputs.channel)
          else
            Exchange(Err(InternalError("RecvProtoBuf failed")), outputs.channel)
  }

  /**
   * The tail of BatchInvoke: an exchange error is the result; otherwise
   * every output must unpack into the output message type.
   */
  function UnpackOutputs(codec: Codec, received: Result<seq<Any>>): (r: Result<seq<BF.Message>>)
    ensures received.Err? ==> r == Err(received.status)
    ensures received.Ok? ==>
              (r.Ok? <==> forall i :: 0 <= i < |received.value| ==> codec.unpack(received.value[i]).Some?)
    ensures r.Ok? ==> |r.value| == |received.value| &&
                      forall i :: 0 <= i < |r.value| ==> Some(r.value[i]) == codec.unpack(received.value[i])
    ensures received.Ok? && r.Err? ==> r.status == InternalError("Unable to unpack the function outputs.")
  {
    match received
    case Err(s) => Err(s)
    case Ok(anys) =>
      match UnpackAll(codec, anys)
      case None => Err(InternalError("Unable to unpack the function outputs."))
      case Some(messages) => Ok(messages)
  }

  // ---------------------------------------------------------------------
  // Host and sandboxee together

  /** Whatever one side packs, the other side unpacks to the same message. */
  ghost predicate RoundTrips(c: Codec) {
    forall m :: c.unpack(c.pack(m)) == Some(m)
  }

  lemma {:induction false} UnpackPackAll(c: Codec, messages: seq<BF.Message>)
    requires RoundTrips(c)
    ensures UnpackAll(c, PackAll(c, messages)) == Some(messages)
  {
    var packed := PackAll(c, messages);
    forall i | 0 <= i < |packed| ensures c.unpack(packed[i]) == Some(messages[i]) {
      assert packed[i] == c.pack(messages[i]);
    }
    assert UnpackAll(c, packed).value == messages;
  }

  /**
   * A compile request from the host, served by the sandboxee: the host
   * sends exactly the tag and the spec, and receives the status the
   * sandboxee's CompileFunction produced, whose slot changes accordingly.
   * (The sandboxee's replies are what the host's inbox holds when it
   * reads; sending never reads the inbox.)
   */
  lemma CompileEndToEnd(rt: Runtime, w: WorkerState, spec: BiddingFunctionSpec, hostCapacity: nat, workerCapacity: nat)
    requires ValidState(w)
    requires hostCapacity >= 2 && workerCapacity >= 1
    ensures var sent := CompileExchange(Channel([], [], hostCapacity), spec).channel.outbox;
            var worker := Serve(rt, w, Channel(sent, [], workerCapacity));
            var host := CompileExchange(Channel(worker.channel.outbox, [], hostCapacity), spec);
            sent == [TagFrame(COMPILE_TAG), SpecFrame(spec)] &&
            worker.outcome == Served &&
            worker.state == CompileStep(rt, w, spec).state &&
            host.result == CompileStep(rt, w, spec).status
  {
    var sent := CompileExchange(Channel([], [], hostCapacity), spec).channel.outbox;
    assert sent == [TagFrame(COMPILE_TAG), SpecFrame(spec)];
    CompileRepliesWithStatus(rt, w, Channel(sent, [], workerCapacity));
  }

  /**
   * A batch request from the host, served by the sandboxee: the host's
   * result is exactly what the sandboxee's BatchExecuteFunction returned,
   * success or failure.
   */
  lemma BatchEndToEnd(rt: Runtime, w: WorkerState, inputs: seq<Any>, hostCapacity: nat, workerCapacity: nat)
    requires ValidState(w)
    requires hostCapacity >= 2 && workerCapacity >= 2
    ensures var sent := BatchExecuteExchange(Channel([], [], hostCapacity), inputs).channel.outbox;
            var worker := Serve(rt, w, Channel(sent, [], workerCapacity));
            var host := BatchExecuteExchange(Channel(worker.channel.outbox, [], hostCapacity), inputs);
            sent == [TagFrame(BATCH_EXECUTE_TAG), InputsFrame(inputs)] &&
            worker.outcome == Served && worker.state == w &&
            host.result == ExecuteStep(rt, w, inputs)
  {
    var sent := BatchExecuteExchange(Channel([], [], hostCapacity), inputs).channel.outbox;
    assert sent == [TagFrame(BATCH_EXECUTE_TAG), InputsFrame(inputs)];
    BatchRequestAnswered(rt, w, inputs, workerCapacity);
    HostReadsReplies(ExecuteStep(rt, w, inputs), inputs, hostCapacity);
  }

  /** A batch request with room for two replies: the status, then the outputs of a successful batch. */
  lemma BatchRequestAnswered(rt: Runtime, w: WorkerState, inputs: seq<Any>, capacity: nat)
    requires ValidState(w) && capacity >= 2
    ensures var worker := Serve(rt, w, Channel([TagFrame(BATCH_EXECUTE_TAG), InputsFrame(inputs)], [], capacity));
            worker.outcome == Served && worker.state == w &&
            worker.channel.outbox == BatchReplies(ExecuteStep(rt, w, inputs))
  {
    var ch := Channel([TagFrame(BATCH_EXECUTE_TAG), InputsFrame(inputs)], [], capacity);
    assert Serve(rt, w, ch) == ServeBatch(rt, w, Channel([InputsFrame(inputs)], [], capacity));
  }

  /** The frames a sandboxee sends back for a batch result. */
  function BatchReplies(result: Result<seq<Any>>): (r: seq<Frame>)
    ensures |r| == if result.Ok? then 2 else 1
    ensures r[0] == StatusFrame(ToStatus(result))
  {
    if result.Ok? then [StatusFrame(OkStatus), OutputsFrame(result.value)]
    else [StatusFrame(result.status)]
  }

  /** The host reads back exactly the batch result the replies carry. */
  lemma HostReadsReplies(result: Result<seq<Any>>, inputs: seq<Any>, capacity: nat)
    requires result.Err? ==> result.status.IsFailure()
    requires capacity >= 2
    ensures BatchExecuteExchange(Channel(BatchReplies(result), [], capacity), inputs).result == result
  {
  }

  /**
   * With codecs that round-trip, a sandboxed function's batch gives the
   * host exactly what the same compiled function gives in process: the
   * outputs in input order, or the status of the first failing input.
   */
  lemma SandboxedBatchMatchesInProcess(rt: Runtime, w: WorkerState, inputs: seq<BF.Message>,
                                       hostCapacity: nat, workerCapacity: nat)
    requires ValidState(w) && !w.functionType.FunctionTypeUnspecified?
    requires RoundTrips(InstantiationFor(rt, w.functionType).inputs)
    requires RoundTrips(InstantiationFor(rt, w.functionType).outputs)
    requires hostCapacity >= 2 && workerCapacity >= 2
    ensures var inst := InstantiationFor(rt, w.functionType);
            var packed := PackAll(inst.inputs, inputs);
            var worker := Serve(rt, w, Channel([TagFrame(BATCH_EXECUTE_TAG), InputsFrame(packed)], [], workerCapacity));
            UnpackOutputs(inst.outputs, BatchExecuteExchange(Channel(worker.channel.outbox, [], hostCapacity), packed).result)
              == BF.BatchResult(inst.engine, w.compiled.value, inputs)
  {
    var inst := InstantiationFor(rt, w.functionType);
    var packed := PackAll(inst.inputs, inputs);
    BatchEndToEnd(rt, w, packed, hostCapacity, workerCapacity);
    UnpackPackAll(inst.inputs, inputs);
    var result := BF.BatchResult(inst.engine, w.compiled.value, inputs);
    if result.Ok? {
      UnpackPackAll(inst.outputs, result.value);
    }
  }

  /**
   * Once a compile succeeds in a fresh sandboxee, every sandboxed batch
   * runs the function created from the compiled spec's own source, as
   * BiddingFunction::Create would make it in process.
   */
  lemma SandboxRunsCreatedFunction(rt: Runtime, spec: BiddingFunctionSpec, inputs: seq<BF.Message>,
                                   hostCapacity: nat, workerCapacity: nat)
    requires CompileStep(rt, EmptySlot, spec).status.IsOk()
    requires RoundTrips(InstantiationFor(rt, spec.functionType).inputs)
    requires RoundTrips(InstantiationFor(rt, spec.functionType).outputs)
    requires hostCapacity >= 2 && workerCapacity >= 2
    ensures var inst := InstantiationFor(rt, spec.functionType);
            var packed := PackAll(inst.inputs, inputs);
            var w := CompileStep(rt, EmptySlot, spec).state;
            var worker := Serve(rt, w, Channel([TagFrame(BATCH_EXECUTE_TAG), InputsFrame(packed)], [], workerCapacity));
            UnpackOutputs(inst.outputs, BatchExecuteExchange(Channel(worker.channel.outbox, [], hostCapacity), packed).result)
              == BF.BatchResult(inst.engine, CreateFor(rt, spec).value, inputs)
  {
    SandboxedBatchMatchesInProcess(rt, CompileStep(rt, EmptySlot, spec).state, inputs, hostCapacity, workerCapacity);
  }

  // ---------------------------------------------------------------------
  // The code, step by step

  /** SapiBiddingFunction::Sandbox: the sandboxee process as the host sees it. */
  class Sandbox {
    /** The channel to the sandboxee. */
    const comms: Comms
    /** What ::sapi::Sandbox::Init reports when it tries to start the sandboxee. */
    const initStatus: Status
    var active: bool
    /** The wall-time limit in seconds; 0 means disarmed. */
    var wallTimeLimit: nat

    constructor (comms: Comms, initStatus: Status)
      ensures this.comms == comms && this.initStatus == initStatus
      ensures !active && wallTimeLimit == NO_TIME_LIMIT
    {
      this.comms := comms;
      this.initStatus := initStatus;
      active := false;
      wallTimeLimit := NO_TIME_LIMIT;
    }

    /** Init: the sandboxee runs exactly when starting it succeeded. */
    method Init() returns (s: Status)
      modifies this
      ensures s == initStatus
      ensures active == initStatus.IsOk()
      ensures wallTimeLimit == old(wallTimeLimit)
    {
      active := initStatus.IsOk();
      s := initStatus;
    }

    /** SetWallTimeLimit: only a running sandboxee gets a new limit. */
    method SetWallTimeLimit(limit: nat) returns (s: Status)
      modifies this
      ensures active == old(active)
      ensures old(active) ==> s == OkStatus && wallTimeLimit == limit
      ensures !old(active) ==> s == SandboxNotActive && wallTimeLimit == old(wallTimeLimit)
    {
      if !active {
        return SandboxNotActive;
      }
      wallTimeLimit := limit;
      s := OkStatus;
    }

    /** Sandbox::CompileFunction. */
    method CompileFunction(spec: BiddingFunctionSpec) returns (s: Status)
      modifies comms
      ensures Exchange(s, comms.View()) == CompileExchange(old(comms.View()), spec)
    {
      var sent := comms.SendFrame(TagFrame(COMPILE_TAG));
      if !sent {
        return InternalError("SendTLV failed");
      }
      sent := comms.SendFrame(SpecFrame(spec));
      if !sent {
        return InternalError("SendProtoBuf failed");
      }
      var reply := comms.RecvFrame();
      if reply.None? || !reply.value.StatusFrame? {
        return InternalError("RecvStatus failed");
      }
      s := reply.value.status;
    }

    /** Sandbox::BatchExecute. */
    method BatchExecute(inputs: seq<Any>) returns (r: Result<seq<Any>>)
      modifies comms
      ensures Exchange(r, comms.View()) == BatchExecuteExchange(old(comms.View()), inputs)
    {
      var sent := comms.SendFrame(TagFrame(BATCH_EXECUTE_TAG));
      if !sent {
        return Err(InternalError("SendTLV failed"));
      }
      sent := comms.SendFrame(InputsFrame(inputs));
      if !sent {
        return Err(InternalError("SendProtoBuf failed"));
      }
      var reply := comms.RecvFrame();
      if reply.None? || !reply.value.StatusFrame? {
        return Err(InternalError("RecvStatus failed"));
      }
      if reply.value.status.IsFailure() {
        return Err(reply.value.status);
      }
      var outputs := comms.RecvFrame();
      if outputs.None? || !outputs.value.OutputsFrame? {
        return Err(InternalError("RecvProtoBuf failed"));
      }
      r := Ok(outputs.value.outputs);
    }
  }

  /** A bidding or scoring function whose every invocation runs in its own sandboxee. */
  class SapiFunction {
    const sandbox: Sandbox
    const options: FunctionOptions
    /** Packs the host's input messages. */
    const inputCodec: Codec
    /** Unpacks the sandboxee's output messages. */
    const outputCodec: Codec
    /** execute_duration_limit_, in seconds. */
    const executeDurationLimit: nat

    constructor (sandbox: Sandbox, options: FunctionOptions, inputCodec: Codec, outputCodec: Codec)
      ensures this.sandbox == sandbox && this.options == options
      ensures this.inputCodec == inputCodec && this.outputCodec == outputCodec
      ensures executeDurationLimit == EXECUTE_DURATION_LIMIT
    {
      this.sandbox := sandbox;
      this.options := options;
      this.inputCodec := inputCodec;
      this.outputCodec := outputCodec;
      executeDurationLimit := EXECUTE_DURATION_LIMIT;
    }

    /**
     * BatchInvoke: arm the execution limit, run the batch, disarm the limit
     * whatever the batch gave, and only then look at the batch's result.
     */
    method BatchInvoke(inputs: seq<BF.Message>) returns (r: Result<seq<BF.Message>>)
      modifies sandbox, sandbox.comms
      ensures sandbox.active == old(sandbox.active)
      ensures !old(sandbox.active) ==>
                r == Err(SandboxNotActive) && sandbox.wallTimeLimit == old(sandbox.wallTimeLimit) &&
                sandbox.comms.View() == old(sandbox.comms.View())
      ensures old(sandbox.active) ==>
                var ex := BatchExecuteExchange(old(sandbox.comms.View()), PackAll(inputCodec, inputs));
                sandbox.comms.View() == ex.channel &&
                sandbox.wallTimeLimit == NO_TIME_LIMIT &&
                r == UnpackOutputs(outputCodec, ex.result)
    {
      var s := sandbox.SetWallTimeLimit(executeDurationLimit);
      if s.IsFailure() {
        return Err(s);
      }
      var packed := PackMessages(inputCodec, inputs);
      var received := sandbox.BatchExecute(packed);
      s := sandbox.SetWallTimeLimit(NO_TIME_LIMIT);
      assert s == OkStatus;
      var anys :- received;
      var outputs := UnpackMessages(outputCodec, anys);
      if outputs.None? {
        return Err(InternalError("Unable to unpack the function outputs."));
      }
      r := Ok(outputs.value);
    }
  }

  /**
   * SapiBiddingFunction::Create: start a sandboxee on the given channel,
   * compile the script there under the compile limit and disarm the
   * limit. The first failing step's status is the result.
   */
  method Create(comms: Comms, initStatus: Status,
                kind: BF.FunctionKind, inputCodec: Codec, outputCodec: Codec,
                source: string, options: FunctionOptions)
    returns (r: Result<SapiFunction>)
    modifies comms
    ensures initStatus.IsFailure() ==> r == Err(initStatus) && comms.View() == old(comms.View())
    ensures initStatus.IsOk() ==>
              var ex := CompileExchange(old(comms.View()), GetBiddingFunctionSpec(kind, source, options));
              comms.View() == ex.channel &&
              (ex.result.IsFailure() ==> r == Err(ex.result)) &&
              (ex.result.IsOk() ==> r.Ok?)
    ensures r.Ok? ==> fresh(r.value) && fresh(r.value.sandbox) &&
                      r.value.sandbox.comms == comms && r.value.options == options &&
                      r.value.inputCodec == inputCodec && r.value.outputCodec == outputCodec &&
                      r.value.sandbox.active && r.value.sandbox.wallTimeLimit == NO_TIME_LIMIT
  {
    var sandbox := new Sandbox(comms, initStatus);
    var s := sandbox.Init();
    if s.IsFailure() {
      return Err(s);
    }
    s := sandbox.SetWallTimeLimit(COMPILE_TIME_LIMIT);
    assert s == OkStatus;
    s := sandbox.CompileFunction(GetBiddingFunctionSpec(kind, source, options));
    if s.IsFailure() {
      return Err(s);
    }
    s := sandbox.SetWallTimeLimit(NO_TIME_LIMIT);
    assert s == OkStatus;
    var f := new SapiFunction(sandbox, options, inputCodec, outputCodec);
    r := Ok(f);
  }
}
