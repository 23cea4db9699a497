/**
 * function/bidding_function: a bidding or ad-scoring function compiled into
 * a V8 startup snapshot and invoked on batches of protocol-buffer inputs.
 *
 * The JavaScript engine is not modelled; an `Engine` value lists what the
 * code asks of it (compile, run, call, JSON conversions, promise states)
 * as functions the model is parameterised by. A context's global object is
 * a map from names to values; calling a function may change it.
 */
module BiddingFunction {
  import opened Status
  import opened FunctionInterface

  /** Number of throw-away invocations made while the snapshot is created. */
  const WARM_UP_ITERATIONS: nat := 10
  /** Global under which the compiled function is stored in the snapshot. */
  const INTERNAL_FUNCTION_NAME: string := "__GenerateBid_Internal__"
  const FLEDGE_BIDDING_FUNCTION_NAME: string := "generateBid"
  const FLEDGE_SCORE_AD_FUNCTION_NAME: string := "scoreAd"

  // Error messages, as the code words them.
  const ASYNC_TIMED_OUT: string := "Async javascript function timed out."
  const ASYNC_FAILED: string := "Async javascript function failed: "
  const NO_SOURCE_STRING: string := "Unable to create a script source string."
  const COMPILE_FAILED: string := "Unable to compile the script: "
  const RUN_FAILED: string := "Cannot run the script: "
  const NO_DECLARED_FUNCTION: string := "Cannot get function named according to FLEDGE API conventions: "
  const DECLARED_NOT_A_FUNCTION: string := "Globally-declared object with the expected FLEDGE function name was not a function."
  const STORE_FAILED: string := "Could not set global GenerateBid."
  const LOAD_FAILED: string := "Cannot load the function: "
  const NOT_A_FUNCTION: string := "Script did not return a function."
  const EXECUTION_FAILED: string := "Function execution failed: "
  const UNSUPPORTED_ARGUMENT: string := "Only message, map or double arguments are supported"
  const INPUT_CONVERSION_FAILED: string := "Unable to convert a bidding function input."
  const MISSING_V8_VALUE: string := "Missing expected V8 value."
  const SERIALIZE_FAILED: string := "Unable to serialize function output to JSON."
  const OUTPUT_CONVERSION_FAILED: string := "Unable to convert the bidding function output from JSON: "

  /** The two instantiations of the BiddingFunction template. */
  datatype FunctionKind = Bidding | AdScoring

  /** GetFunctionDeclarationName: the FLEDGE name a script declares its function under. */
  function DeclarationName(kind: FunctionKind): (r: string)
    ensures r == FLEDGE_BIDDING_FUNCTION_NAME <==> kind == Bidding
    ensures r == FLEDGE_SCORE_AD_FUNCTION_NAME <==> kind == AdScoring
    ensures r != INTERNAL_FUNCTION_NAME
  {
    match kind
    case Bidding => FLEDGE_BIDDING_FUNCTION_NAME
    case AdScoring => FLEDGE_SCORE_AD_FUNCTION_NAME
  }

  // ---------------------------------------------------------------------
  // JavaScript values and protocol-buffer messages

  datatype JsValue =
    | JsUndefined
    | JsNull
    | JsBoolean(b: bool)
    | JsNumber(n: real)
    | JsString(s: string)
    | JsObject(props: seq<Property>)
    | JsFunction(fid: nat)
    | JsPromise(pid: nat)

  datatype Property = Property(name: string, value: JsValue)

  /** The global object of a context. */
  type Globals = map<string, JsValue>

  /** Reading an absent global yields `undefined`. */
  function Global(g: Globals, name: string): JsValue {
    if name in g then g[name] else JsUndefined
  }

  /**
   * How a V8 operation completed: with a value, or by throwing; the
   * message is the text of the caught exception ("" when there is none).
   */
  datatype Completion<T> = Normal(value: T) | Threw(message: string)

  /** Reading a global property: its value, or the exception its getter threw. */
  function ReadGlobal(e: Engine, g: Globals, name: string): Completion<JsValue> {
    match e.getterThrows(g, name)
    case Some(m) => Threw(m)
    case None => Normal(Global(g, name))
  }

  /** A completion together with the global object it left behind. */
  datatype Effect = Effect(completion: Completion<JsValue>, globals: Globals)

  datatype PromiseState = Pending | Fulfilled(result: JsValue) | Rejected(reason: string)

  /** A protocol-buffer message, fields in descriptor order. */
  datatype Message = Message(fields: seq<Field>)
  datatype Field = Field(name: string, value: FieldValue)
  /** The field types flattening distinguishes; every other type is a scalar. */
  datatype FieldValue =
    | MessageField(message: Message)
    | MapField(entries: seq<MapEntry>)
    | DoubleField(number: real)
    | ScalarField(typeName: string)
  /** An entry of a map<string, Message> field. */
  datatype MapEntry = MapEntry(key: string, value: Message)

  /**
   * What the code asks of V8 and of the protobuf JSON utilities, for the
   * instantiation `kind`.
   *  - `newContext`: the global object of a fresh context;
   *  - `defaultInput`: a default-constructed input message;
   *  - `sourceString`: whether String::NewFromUtf8 makes a string of a
   *    script source;
   *  - `getterThrows(g, name)`: the message of the exception reading global
   *    `name` throws (an accessor defined by the script), if any;
   *  - `setGlobal(g, name)`: whether Object::Set of global `name` succeeds;
   *  - `asyncWaitBudget`: microtask checkpoints that fit in the
   *    bidding_function_async_wait flag (50 ms by default);
   *  - `compile`/`run`: Script::Compile and Script::Run;
   *  - `call`: Function::Call with the global object as receiver;
   *  - `promiseState(p, n)`: state of promise p after n microtask checkpoints;
   *  - `messageToJson`/`parseJson`: MessageToJsonString and JSON::Parse;
   *  - `stringify`/`jsonToMessage`: JSON::Stringify and JsonStringToMessage
   *    (which reports a failure with a message).
   */
  datatype Engine = Engine(
    kind: FunctionKind,
    newContext: Globals,
    defaultInput: Message,
    sourceString: string -> bool,
    getterThrows: (Globals, string) -> Option<string>,
    setGlobal: (Globals, string) -> bool,
    asyncWaitBudget: nat,
    compile: string -> Completion<nat>,
    run: (nat, Globals) -> Effect,
    call: (JsValue, seq<JsValue>, Globals) -> Effect,
    promiseState: (nat, nat) -> PromiseState,
    messageToJson: Message -> Option<string>,
    parseJson: string -> Option<JsValue>,
    stringify: JsValue -> Option<string>,
    jsonToMessage: string -> Completion<Message>)

  /**
   * A created BiddingFunction: the startup snapshot (the global object the
   * script and the warm-up left behind) and its options. It is never
   * modified after creation.
   */
  datatype CompiledFunction = CompiledFunction(snapshot: Globals, options: FunctionOptions)

  // ---------------------------------------------------------------------
  // Argument conversion

  /** ConvertArgument: message -> JSON text -> JavaScript value. */
  function ConvertArgument(e: Engine, m: Message): (r: Result<JsValue>)
    ensures r.Err? ==> r.status.IsFailure()
    ensures e.messageToJson(m).None? ==> r == Err(InternalError(INPUT_CONVERSION_FAILED))
    ensures e.messageToJson(m).Some? && e.parseJson(e.messageToJson(m).value).None? ==>
              r == Err(InternalError(MISSING_V8_VALUE))
    // The argument is the value JSON::Parse makes of the message's JSON text.
    ensures r.Ok? <==> e.messageToJson(m).Some? && e.parseJson(e.messageToJson(m).value).Some?
    ensures r.Ok? ==> r.value == e.parseJson(e.messageToJson(m).value).value
  {
    match e.messageToJson(m)
    case None => Err(InternalError(INPUT_CONVERSION_FAILED))
    case Some(json) =>
      match e.parseJson(json)
      case None => Err(InternalError(MISSING_V8_VALUE))
      case Some(v) => Ok(v)
  }

  /** Conversion of each map entry's value, in entry order. */
  function EntryOutcomes(e: Engine, entries: seq<MapEntry>): (r: seq<Result<JsValue>>)
    ensures |r| == |entries|
    ensures forall i :: 0 <= i < |entries| ==> r[i] == ConvertArgument(e, entries[i].value)
  {
    if entries == [] then [] else [ConvertArgument(e, entries[0].value)] + EntryOutcomes(e, entries[1..])
  }

  /**
   * GetMapArgument: an object with one property per map entry, named by
   * the entry's key and holding its converted value, in entry order; the
   * first entry that cannot be converted fails the whole argument.
   */
  function MapArgument(e: Engine, entries: seq<MapEntry>): (r: Result<JsValue>)
    ensures r.Ok? <==> forall i :: 0 <= i < |entries| ==> ConvertArgument(e, entries[i].value).Ok?
    ensures r.Ok? ==> r.value.JsObject? && |r.value.props| == |entries|
    ensures r.Ok? ==> forall i :: 0 <= i < |entries| ==>
              r.value.props[i] == Property(entries[i].key, ConvertArgument(e, entries[i].value).value)
    ensures r.Err? ==>
              exists k :: FailsFirstAt(EntryOutcomes(e, entries), k) &&
                          r.status == ConvertArgument(e, entries[k].value).status
  {
    if entries == [] then Ok(JsObject([]))
    else
      match ConvertArgument(e, entries[0].value)
      case Err(s) =>
        assert FailsFirstAt(EntryOutcomes(e, entries), 0);
        Err(s)
      case Ok(v) =>
        match MapArgument(e, entries[1..])
        case Err(s) =>
          var k :| FailsFirstAt(EntryOutcomes(e, entries[1..]), k) &&
                   s == ConvertArgument(e, entries[1..][k].value).status;
          LaterEntryFailsFirst(e, entries, k);
          Err(s)
        case Ok(rest) =>
          Ok(JsObject([Property(entries[0].key, v)] + rest.props))
  }

  /** A first failure among the later entries, after a first entry that converts, is the first failure of all. */
  lemma LaterEntryFailsFirst(e: Engine, entries: seq<MapEntry>, k: int)
    requires |entries| > 0 && ConvertArgument(e, entries[0].value).Ok?
    requires FailsFirstAt(EntryOutcomes(e, entries[1..]), k)
    ensures FailsFirstAt(EntryOutcomes(e, entries), k + 1)
    ensures entries[k + 1] == entries[1..][k]
  {
    var outcomes := EntryOutcomes(e, entries);
    forall j | 0 <= j < k + 1
      ensures outcomes[j].Ok?
    {
      if j > 0 {
        assert entries[j] == entries[1..][j - 1];
      }
    }
  }

  /** The argument one top-level field becomes when arguments are flattened. */
  function FieldArgument(e: Engine, v: FieldValue): (r: Result<JsValue>)
    ensures r.Err? ==> r.status.IsFailure()
    // A message field is converted as a whole input would be.
    ensures v.MessageField? ==> r == ConvertArgument(e, v.message)
    // A map field becomes an object keyed by the map's keys.
    ensures v.MapField? ==> r == MapArgument(e, v.entries)
    // A double is passed as the number itself, and cannot fail.
    ensures v.DoubleField? ==> r == Ok(JsNumber(v.number))
    // Every other type is refused.
    ensures v.ScalarField? ==> r == Err(FailedPreconditionError(UNSUPPORTED_ARGUMENT))
  {
    match v
    case MessageField(m) => ConvertArgument(e, m)
    case MapField(entries) => MapArgument(e, entries)
    case DoubleField(d) => Ok(JsNumber(d))
    case ScalarField(_) => Err(FailedPreconditionError(UNSUPPORTED_ARGUMENT))
  }

  function FieldOutcomes(e: Engine, fields: seq<Field>): (r: seq<Result<JsValue>>)
    ensures |r| == |fields|
    ensures forall i :: 0 <= i < |fields| ==> r[i] == FieldArgument(e, fields[i].value)
  {
    if fields == [] then [] else [FieldArgument(e, fields[0].value)] + FieldOutcomes(e, fields[1..])
  }

  /**
   * The arguments InvokeFunctionOnce passes: one per top-level field when
   * flattening, failing on the first field that cannot be converted;
   * otherwise the whole input as a single argument.
   */
  function Arguments(e: Engine, input: Message, options: FunctionOptions): (r: Result<seq<JsValue>>)
    ensures options.flattenFunctionArguments ==>
              (r.Ok? <==> forall i :: 0 <= i < |input.fields| ==> FieldArgument(e, input.fields[i].value).Ok?)
    ensures options.flattenFunctionArguments && r.Ok? ==>
              |r.value| == |input.fields| &&
              forall i :: 0 <= i < |input.fields| ==> r.value[i] == FieldArgument(e, input.fields[i].value).value
    ensures options.flattenFunctionArguments && r.Err? ==>
              exists k :: FailsFirstAt(FieldOutcomes(e, input.fields), k) &&
                          r.status == FieldArgument(e, input.fields[k].value).status
    ensures !options.flattenFunctionArguments ==>
              (r.Ok? <==> ConvertArgument(e, input).Ok?) &&
              (r.Ok? ==> r.value == [ConvertArgument(e, input).value]) &&
              (r.Err? ==> r.status == ConvertArgument(e, input).status)
  {
    if options.flattenFunctionArguments then FailFast(FieldOutcomes(e, input.fields))
    else
      var v :- ConvertArgument(e, input);
      Ok([v])
  }

  /**
   * A field of a type other than message, map or double is refused with
   * FAILED_PRECONDITION once every field before it has been converted.
   */
  lemma UnsupportedFieldRejected(e: Engine, input: Message, options: FunctionOptions, k: int)
    requires options.flattenFunctionArguments
    requires 0 <= k < |input.fields| && input.fields[k].value.ScalarField?
    requires forall j :: 0 <= j < k ==> FieldArgument(e, input.fields[j].value).Ok?
    ensures Arguments(e, input, options) ==
              Err(FailedPreconditionError(UNSUPPORTED_ARGUMENT))
  {
    FailFastFirstFailure(FieldOutcomes(e, input.fields), k);
  }

  // ---------------------------------------------------------------------
  // Invocation

  /**
   * Number of microtask checkpoints WaitForPromise performs, counting from
   * `n`: it stops at the first state that is no longer pending, or when
   * the budget is used up.
   */
  function SettleIndex(e: Engine, pid: nat, n: nat): (k: nat)
    requires n <= e.asyncWaitBudget
    ensures n <= k <= e.asyncWaitBudget
    ensures forall j :: n <= j < k ==> e.promiseState(pid, j).Pending?
    ensures k < e.asyncWaitBudget ==> !e.promiseState(pid, k).Pending?
    decreases e.asyncWaitBudget - n
  {
    if !e.promiseState(pid, n).Pending? || n == e.asyncWaitBudget then n
    else SettleIndex(e, pid, n + 1)
  }

  /** WaitForPromise's outcome: the settled state, or a time-out. */
  function WaitOutcome(e: Engine, pid: nat): (r: Result<JsValue>)
    ensures r.Err? ==> r.status.code == INVALID_ARGUMENT
  {
    match e.promiseState(pid, SettleIndex(e, pid, 0))
    case Fulfilled(v) => Ok(v)
    case Rejected(reason) => Err(InvalidArgumentError(ASYNC_FAILED + reason))
    case Pending => Err(InvalidArgumentError(ASYNC_TIMED_OUT))
  }

  /** A promise still pending after every checkpoint of the budget times out, and only then. */
  lemma PromiseTimesOut(e: Engine, pid: nat)
    ensures WaitOutcome(e, pid) == Err(InvalidArgumentError(ASYNC_TIMED_OUT)) <==>
              forall n :: 0 <= n <= e.asyncWaitBudget ==> e.promiseState(pid, n).Pending?
  {
    var k := SettleIndex(e, pid, 0);
    var state := e.promiseState(pid, k);
    if state.Rejected? {
      var failed := ASYNC_FAILED + state.reason;
      assert failed[26] == 'f';
      assert failed != ASYNC_TIMED_OUT;
    }
    if state.Pending? {
      assert k == e.asyncWaitBudget;
      forall n | 0 <= n <= e.asyncWaitBudget ensures e.promiseState(pid, n).Pending? {
        assert n < k || n == k;
      }
    }
  }

  /** A promise that settles within the budget yields the state it first settled in. */
  lemma PromiseSettles(e: Engine, pid: nat, k: nat)
    requires k <= e.asyncWaitBudget
    requires !e.promiseState(pid, k).Pending?
    requires forall j :: 0 <= j < k ==> e.promiseState(pid, j).Pending?
    ensures e.promiseState(pid, k).Fulfilled? ==> WaitOutcome(e, pid) == Ok(e.promiseState(pid, k).result)
    ensures e.promiseState(pid, k).Rejected? ==>
              WaitOutcome(e, pid) ==
                Err(InvalidArgumentError(ASYNC_FAILED + e.promiseState(pid, k).reason))
  {
    var s := SettleIndex(e, pid, 0);
    assert s == k;
  }

  /** The outcome of one step and the global object it leaves. */
  datatype Step = Step(result: Result<JsValue>, globals: Globals)

  /**
   * InvokeFunctionWithJsonInput: fetch the stored function, call it, and
   * wait for the result when it is a promise.
   */
  function Invoke(e: Engine, args: seq<JsValue>, g: Globals): (st: Step)
    ensures st.result.Err? ==> st.result.status.IsFailure()
    // A stored function that cannot be read or is not callable is never called.
    ensures ReadGlobal(e, g, INTERNAL_FUNCTION_NAME).Threw? ==>
              st == Step(Err(InternalError(LOAD_FAILED +
                                           ReadGlobal(e, g, INTERNAL_FUNCTION_NAME).message)), g)
    ensures ReadGlobal(e, g, INTERNAL_FUNCTION_NAME).Normal? &&
            !ReadGlobal(e, g, INTERNAL_FUNCTION_NAME).value.JsFunction? ==>
              st == Step(Err(InternalError(NOT_A_FUNCTION)), g)
    // Otherwise the call decides: an exception is reported with its message,
    // a promise is awaited, and any other value is the result as it is.
    ensures ReadGlobal(e, g, INTERNAL_FUNCTION_NAME).Normal? &&
            ReadGlobal(e, g, INTERNAL_FUNCTION_NAME).value.JsFunction? ==>
              var eff := e.call(ReadGlobal(e, g, INTERNAL_FUNCTION_NAME).value, args, g);
              st.globals == eff.globals &&
              (eff.completion.Threw? ==>
                 st.result == Err(InternalError(EXECUTION_FAILED + eff.completion.message))) &&
              (eff.completion.Normal? && eff.completion.value.JsPromise? ==>
                 st.result == WaitOutcome(e, eff.completion.value.pid)) &&
              (eff.completion.Normal? && !eff.completion.value.JsPromise? ==>
                 st.result == Ok(eff.completion.value))
  {
    match ReadGlobal(e, g, INTERNAL_FUNCTION_NAME)
    case Threw(m) => Step(Err(InternalError(LOAD_FAILED + m)), g)
    case Normal(fn) =>
      if !fn.JsFunction? then Step(Err(InternalError(NOT_A_FUNCTION)), g)
      else
        var eff := e.call(fn, args, g);
        match eff.completion
        case Threw(m) => Step(Err(InternalError(EXECUTION_FAILED + m)), eff.globals)
        case Normal(v) => Step(if v.JsPromise? then WaitOutcome(e, v.pid) else Ok(v), eff.globals)
  }

  /** InvokeFunctionOnce: build the arguments, then invoke. */
  function InvokeOnce(e: Engine, input: Message, g: Globals, options: FunctionOptions): (st: Step)
    ensures st.result.Err? ==> st.result.status.IsFailure()
    // Arguments that cannot be built fail the invocation before any call.
    ensures Arguments(e, input, options).Err? ==> st == Step(Err(Arguments(e, input, options).status), g)
    ensures Arguments(e, input, options).Ok? ==> st == Invoke(e, Arguments(e, input, options).value, g)
  {
    match Arguments(e, input, options)
    case Err(s) => Step(Err(s), g)
    case Ok(args) => Invoke(e, args, g)
  }

  /** ConvertOutput: JavaScript value -> JSON text -> output message. */
  function ConvertOutput(e: Engine, v: JsValue): (r: Result<Message>)
    ensures r.Err? ==> r.status.IsFailure()
    ensures e.stringify(v).None? ==> r == Err(InternalError(SERIALIZE_FAILED))
    ensures e.stringify(v).Some? && e.jsonToMessage(e.stringify(v).value).Threw? ==>
              r == Err(FailedPreconditionError(OUTPUT_CONVERSION_FAILED +
                                               e.jsonToMessage(e.stringify(v).value).message))
    ensures r.Ok? <==> e.stringify(v).Some? && e.jsonToMessage(e.stringify(v).value).Normal?
    ensures r.Ok? ==> r.value == e.jsonToMessage(e.stringify(v).value).value
  {
    match e.stringify(v)
    case None => Err(InternalError(SERIALIZE_FAILED))
    case Some(json) =>
      match e.jsonToMessage(json)
      case Threw(m) => Err(FailedPreconditionError(OUTPUT_CONVERSION_FAILED + m))
      case Normal(out) => Ok(out)
  }

  /** The output of one invocation: its error as it is, or its value converted to the output message. */
  function OutputOf(e: Engine, r: Result<JsValue>): (out: Result<Message>)
    requires r.Err? ==> r.status.IsFailure()
    ensures out.Err? ==> out.status.IsFailure()
    ensures r.Err? ==> out == Err(r.status)
    ensures r.Ok? ==> out == ConvertOutput(e, r.value)
  {
    match r
    case Err(s) => Err(s)
    case Ok(v) => ConvertOutput(e, v)
  }

  /**
   * Per-input outcomes of one batch: the inputs run one after another in
   * a single context, each seeing the global object the previous one left.
   */
  function BatchOutcomes(e: Engine, options: FunctionOptions, inputs: seq<Message>, g: Globals)
    : (r: seq<Result<Message>>)
    ensures |r| == |inputs|
    ensures forall i :: 0 <= i < |inputs| ==> r[i].Err? ==> r[i].status.IsFailure()
  {
    if inputs == [] then []
    else
      var st := InvokeOnce(e, inputs[0], g, options);
      [OutputOf(e, st.result)] + BatchOutcomes(e, options, inputs[1..], st.globals)
  }

  /** The outcomes from input i on: input i's own, then those of the rest on the globals it leaves. */
  lemma BatchOutcomesAt(e: Engine, options: FunctionOptions, inputs: seq<Message>, i: int, g: Globals)
    requires 0 <= i < |inputs|
    ensures BatchOutcomes(e, options, inputs[i..], g) ==
              [OutputOf(e, InvokeOnce(e, inputs[i], g, options).result)] +
              BatchOutcomes(e, options, inputs[i + 1..], InvokeOnce(e, inputs[i], g, options).globals)
  {
    assert inputs[i..][0] == inputs[i];
    assert inputs[i..][1..] == inputs[i + 1..];
  }

  /** A failure right after a run of successes decides the batch. */
  lemma FailureAfterSuccesses<O>(outputs: seq<O>, failure: Result<O>, later: seq<Result<O>>)
    requires failure.Err?
    ensures FailFast(Successes(outputs) + ([failure] + later)) == Err(failure.status)
  {
    var all := Successes(outputs) + ([failure] + later);
    forall j | 0 <= j < |outputs|
      ensures all[j].Ok?
    {
      assert all[j] == Successes(outputs)[j];
    }
    assert all[|outputs|] == failure;
    FailFastFirstFailure(all, |outputs|);
  }

  /** One more success extends the run of successes. */
  lemma SuccessAfterSuccesses<O>(outputs: seq<O>, o: O, later: seq<Result<O>>)
    ensures Successes(outputs) + ([Ok(o)] + later) == Successes(outputs + [o]) + later
  {
    SuccessesAppend(outputs, o);
  }

  /** BatchInvoke: a fresh context from the snapshot, then fail-fast over the inputs. */
  function BatchResult(e: Engine, f: CompiledFunction, inputs: seq<Message>): (r: Result<seq<Message>>)
    ensures r.Err? ==> r.status.IsFailure()
  {
    FailFast(BatchOutcomes(e, f.options, inputs, f.snapshot))
  }

  /**
   * The BatchInvoke contract: one output per input in input order, or the
   * status of the first input whose invocation or conversion failed.
   */
  lemma BatchInvokeContract(e: Engine, f: CompiledFunction, inputs: seq<Message>)
    ensures BatchResult(e, f, inputs).Ok? ==> |BatchResult(e, f, inputs).value| == |inputs|
    ensures BatchResult(e, f, inputs).Ok? ==> forall i :: 0 <= i < |inputs| ==>
              BatchOutcomes(e, f.options, inputs, f.snapshot)[i] == Ok(BatchResult(e, f, inputs).value[i])
    ensures BatchResult(e, f, inputs).Err? ==>
              exists k :: FailsFirstAt(BatchOutcomes(e, f.options, inputs, f.snapshot), k) &&
                          BatchOutcomes(e, f.options, inputs, f.snapshot)[k] == Err(BatchResult(e, f, inputs).status)
  {
  }

  /**
   * Every batch starts from the snapshot: the first input of any batch is
   * invoked on the snapshot's global object, whatever batches ran before.
   */
  lemma BatchStartsFromSnapshot(e: Engine, f: CompiledFunction, inputs: seq<Message>)
    requires inputs != []
    ensures BatchOutcomes(e, f.options, inputs, f.snapshot)[0] ==
              OutputOf(e, InvokeOnce(e, inputs[0], f.snapshot, f.options).result)
  {
  }

  // ---------------------------------------------------------------------
  // Creation

  /** Global object after `n` warm-up invocations on the default input, errors ignored. */
  function WarmUp(e: Engine, g: Globals, options: FunctionOptions, n: nat): (r: Globals)
    // Warm-up only changes what the invocations change: for a function that
    // leaves the global object alone, the snapshot is the stored globals.
    ensures (forall h: Globals {:trigger InvokeOnce(e, e.defaultInput, h, options)} ::
               InvokeOnce(e, e.defaultInput, h, options).globals == h) ==> r == g
    decreases n
  {
    if n == 0 then g else WarmUp(e, InvokeOnce(e, e.defaultInput, g, options).globals, options, n - 1)
  }

  /** The calls run one after the other: the last of n runs on the globals the first n - 1 left behind. */
  lemma {:induction false} WarmUpLastCall(e: Engine, g: Globals, options: FunctionOptions, n: nat)
    requires n > 0
    ensures WarmUp(e, g, options, n) == InvokeOnce(e, e.defaultInput, WarmUp(e, g, options, n - 1), options).globals
    decreases n
  {
    if n > 1 {
      WarmUpLastCall(e, InvokeOnce(e, e.defaultInput, g, options).globals, options, n - 1);
    }
  }

  /**
   * The stored function `fn` counts its calls in global `name`: on any
   * global object holding `fn` readably under the internal name and a
   * number under `name`, an invocation on the default input adds one to
   * that number, changes nothing else, and leaves `fn` readable.
   */
  ghost predicate CountsInvocations(e: Engine, options: FunctionOptions, name: string, fn: JsValue) {
    name != INTERNAL_FUNCTION_NAME &&
    forall g: Globals {:trigger InvokeOnce(e, e.defaultInput, g, options)} ::
      ReadGlobal(e, g, INTERNAL_FUNCTION_NAME) == Normal(fn) && name in g && g[name].JsNumber? ==>
      var g' := InvokeOnce(e, e.defaultInput, g, options).globals;
      g' == g[name := JsNumber(g[name].n + 1.0)] && ReadGlobal(e, g', INTERNAL_FUNCTION_NAME) == Normal(fn)
  }

  /**
   * Warm-up runs the function exactly `n` times: a stored function counting
   * its calls in a global finds its counter advanced by `n`.
   */
  lemma {:induction false} WarmUpRunsEachIteration(e: Engine, g: Globals, options: FunctionOptions, name: string,
                                                   fn: JsValue, n: nat)
    requires CountsInvocations(e, options, name, fn)
    requires ReadGlobal(e, g, INTERNAL_FUNCTION_NAME) == Normal(fn)
    requires name in g && g[name].JsNumber?
    ensures name in WarmUp(e, g, options, n)
    ensures WarmUp(e, g, options, n) == g[name := JsNumber(g[name].n + n as real)]
    decreases n
  {
    if n == 0 {
      assert g[name := JsNumber(g[name].n + 0 as real)] == g;
    } else {
      var g' := InvokeOnce(e, e.defaultInput, g, options).globals;
      assert g' == g[name := JsNumber(g[name].n + 1.0)] && ReadGlobal(e, g', INTERNAL_FUNCTION_NAME) == Normal(fn);
      WarmUpRunsEachIteration(e, g', options, name, fn, n - 1);
      CounterAdvances(g, name, n);
    }
  }

  /** One increment followed by n - 1 more is n increments. */
  lemma CounterAdvances(g: Globals, name: string, n: nat)
    requires name in g && g[name].JsNumber? && n > 0
    ensures var g' := g[name := JsNumber(g[name].n + 1.0)];
            g'[name := JsNumber(g'[name].n + (n - 1) as real)] == g[name := JsNumber(g[name].n + n as real)]
  {
  }

  /** The function Create stores: the script's completion value if callable, else the declared global. */
  function SelectFunction(e: Engine, completion: JsValue, g: Globals): (r: Completion<JsValue>)
    ensures completion.JsFunction? ==> r == Normal(completion)
    ensures !completion.JsFunction? ==>
              (r.Threw? <==> e.getterThrows(g, DeclarationName(e.kind)).Some?) &&
              (r.Normal? ==> r.value == Global(g, DeclarationName(e.kind)))
  {
    if completion.JsFunction? then Normal(completion) else ReadGlobal(e, g, DeclarationName(e.kind))
  }

  /**
   * Create: compile and run the script, select the function, store it
   * under the internal name, warm it up and keep the resulting snapshot.
   * The script's own faults are INVALID_ARGUMENT; V8 refusing the source
   * string or the store is INTERNAL.
   */
  function CreateResult(e: Engine, source: string, options: FunctionOptions): (r: Result<CompiledFunction>)
    ensures r.Err? ==> r.status.code == INVALID_ARGUMENT || r.status.code == INTERNAL
    ensures r.Ok? ==> r.value.options == options
    ensures !e.sourceString(source) ==> r == Err(InternalError(NO_SOURCE_STRING))
    ensures e.sourceString(source) && e.compile(source).Threw? ==>
              r == Err(InvalidArgumentError(COMPILE_FAILED + e.compile(source).message))
    ensures e.sourceString(source) && e.compile(source).Normal? ==>
              var run := e.run(e.compile(source).value, e.newContext);
              (run.completion.Threw? ==>
                 r == Err(InvalidArgumentError(RUN_FAILED + run.completion.message))) &&
              (run.completion.Normal? ==>
                 r == StoreAndWarmUp(e, run.globals, SelectFunction(e, run.completion.value, run.globals), options))
  {
    if !e.sourceString(source) then Err(InternalError(NO_SOURCE_STRING))
    else
      match e.compile(source)
      case Threw(m) => Err(InvalidArgumentError(COMPILE_FAILED + m))
      case Normal(script) =>
        var run := e.run(script, e.newContext);
        match run.completion
        case Threw(m) => Err(InvalidArgumentError(RUN_FAILED + m))
        case Normal(v) => StoreAndWarmUp(e, run.globals, SelectFunction(e, v, run.globals), options)
  }

  /**
   * The second half of Create, once the script ran and left globals `g`:
   * the callable `fn` it selected is stored under the internal name and
   * warmed up, and the snapshot is the global object the warm-up leaves.
   */
  function StoreAndWarmUp(e: Engine, g: Globals, fn: Completion<JsValue>, options: FunctionOptions)
    : (r: Result<CompiledFunction>)
    ensures r.Err? ==> r.status.code == INVALID_ARGUMENT || r.status.code == INTERNAL
    ensures fn.Threw? ==>
              r == Err(InvalidArgumentError(NO_DECLARED_FUNCTION + fn.message))
    ensures fn.Normal? && !fn.value.JsFunction? ==>
              r == Err(InvalidArgumentError(
                         DECLARED_NOT_A_FUNCTION))
    ensures fn.Normal? && fn.value.JsFunction? && !e.setGlobal(g, INTERNAL_FUNCTION_NAME) ==>
              r == Err(InternalError(STORE_FAILED))
    ensures r.Ok? <==> fn.Normal? && fn.value.JsFunction? && e.setGlobal(g, INTERNAL_FUNCTION_NAME)
    ensures r.Ok? ==>
              r.value == CompiledFunction(WarmUp(e, g[INTERNAL_FUNCTION_NAME := fn.value], options, WARM_UP_ITERATIONS),
                                          options)
  {
    match fn
    case Threw(m) =>
      Err(InvalidArgumentError(NO_DECLARED_FUNCTION + m))
    case Normal(f) =>
      if !f.JsFunction? then
        Err(InvalidArgumentError(DECLARED_NOT_A_FUNCTION))
      else if !e.setGlobal(g, INTERNAL_FUNCTION_NAME) then
        Err(InternalError(STORE_FAILED))
      else
        Ok(CompiledFunction(WarmUp(e, g[INTERNAL_FUNCTION_NAME := f], options, WARM_UP_ITERATIONS), options))
  }

  /**
   * The function Create keeps is callable and is the one the script chose:
   * its completion value when that is a function, otherwise its global of
   * the FLEDGE name.
   */
  lemma CreateStoresCallable(e: Engine, source: string, options: FunctionOptions)
    requires CreateResult(e, source, options).Ok?
    ensures e.sourceString(source) && e.compile(source).Normal?
    ensures var run := e.run(e.compile(source).value, e.newContext);
            run.completion.Normal? &&
            var fn := SelectFunction(e, run.completion.value, run.globals);
            fn.Normal? && fn.value.JsFunction? &&
            (run.completion.value.JsFunction? ==> fn.value == run.completion.value) &&
            (!run.completion.value.JsFunction? ==> fn.value == Global(run.globals, DeclarationName(e.kind))) &&
            CreateResult(e, source, options).value.snapshot ==
              WarmUp(e, run.globals[INTERNAL_FUNCTION_NAME := fn.value], options, WARM_UP_ITERATIONS)
  {
    var run := e.run(e.compile(source).value, e.newContext);
    assert StoreAndWarmUp(e, run.globals, SelectFunction(e, run.completion.value, run.globals), options).Ok?;
  }

  /**
   * A script whose selected function counts its calls in a global that
   * starts at 0 yields a snapshot whose counter is 10: each batch,
   * starting from the snapshot, sees the warm-up's ten calls and none of
   * earlier batches.
   */
  lemma SnapshotHoldsWarmUpCalls(e: Engine, source: string, options: FunctionOptions, name: string, fn: JsValue)
    requires CountsInvocations(e, options, name, fn)
    requires e.compile(source).Normal?
    requires var run := e.run(e.compile(source).value, e.newContext);
             run.completion.Normal? &&
             SelectFunction(e, run.completion.value, run.globals) == Normal(fn) &&
             e.getterThrows(run.globals[INTERNAL_FUNCTION_NAME := fn], INTERNAL_FUNCTION_NAME).None? &&
             name in run.globals && run.globals[name] == JsNumber(0.0)
    ensures CreateResult(e, source, options).Ok? ==>
              name in CreateResult(e, source, options).value.snapshot &&
              CreateResult(e, source, options).value.snapshot[name] == JsNumber(10.0)
  {
    if CreateResult(e, source, options).Ok? {
      CreateStoresCallable(e, source, options);
      var run := e.run(e.compile(source).value, e.newContext);
      var stored := run.globals[INTERNAL_FUNCTION_NAME := fn];
      assert ReadGlobal(e, stored, INTERNAL_FUNCTION_NAME) == Normal(fn);
      WarmUpRunsEachIteration(e, stored, options, name, fn, WARM_UP_ITERATIONS);
    }
  }

  /**
   * An engine running a script such as
   * `var global_counter = 0; (function(input) { return { bid: global_counter++ }; })`,
   * with the counter named `name`: the script's completion value is its
   * function, every call adds one to the counter, and nothing else fails.
   */
  function CountingEngine(name: string): Engine {
    Engine(
      Bidding, map[], Message([]),
      _ => true,
      (_, _) => None,
      (_, _) => true,
      0,
      _ => Normal(0),
      (_, g: Globals) => Effect(Normal(JsFunction(0)), g[name := JsNumber(0.0)]),
      (_, _, g: Globals) =>
        Effect(Normal(JsUndefined), if name in g && g[name].JsNumber? then g[name := JsNumber(g[name].n + 1.0)] else g),
      (_, _) => Pending,
      _ => Some("{}"),
      _ => Some(JsObject([])),
      _ => Some("{}"),
      _ => Normal(Message([])))
  }

  /** The counting engine's function counts its calls, so the warm-up lemmas apply to it. */
  lemma CountingEngineCounts(name: string)
    requires name != INTERNAL_FUNCTION_NAME
    ensures CountsInvocations(CountingEngine(name), DefaultOptions, name, JsFunction(0))
  {
    var e := CountingEngine(name);
    forall g: Globals | ReadGlobal(e, g, INTERNAL_FUNCTION_NAME) == Normal(JsFunction(0)) && name in g && g[name].JsNumber?
      ensures InvokeOnce(e, e.defaultInput, g, DefaultOptions).globals == g[name := JsNumber(g[name].n + 1.0)]
    {
      assert Arguments(e, e.defaultInput, DefaultOptions) == Ok([JsObject([])]);
    }
  }

  /** The counting script runs to its function, with the counter at 0 and the stored function readable. */
  lemma CountingScriptRuns(name: string, source: string)
    ensures var e := CountingEngine(name);
            var run := e.run(e.compile(source).value, e.newContext);
            e.sourceString(source) && e.compile(source).Normal? &&
            run.completion == Normal(JsFunction(0)) &&
            SelectFunction(e, run.completion.value, run.globals) == Normal(JsFunction(0)) &&
            e.getterThrows(run.globals[INTERNAL_FUNCTION_NAME := JsFunction(0)], INTERNAL_FUNCTION_NAME).None? &&
            e.setGlobal(run.globals, INTERNAL_FUNCTION_NAME) &&
            name in run.globals && run.globals[name] == JsNumber(0.0)
  {
  }

  /** Creating the counting script succeeds, and its snapshot's counter holds the ten warm-up calls. */
  lemma CountingScriptSnapshot(name: string, source: string)
    requires name != INTERNAL_FUNCTION_NAME
    ensures CreateResult(CountingEngine(name), source, DefaultOptions).Ok?
    ensures var snapshot := CreateResult(CountingEngine(name), source, DefaultOptions).value.snapshot;
            name in snapshot && snapshot[name] == JsNumber(10.0)
  {
    CountingScriptRuns(name, source);
    CountingEngineCounts(name);
    SnapshotHoldsWarmUpCalls(CountingEngine(name), source, DefaultOptions, name, JsFunction(0));
  }

  // ---------------------------------------------------------------------
  // The code, step by step

  /** GetMapArgument, entry by entry. */
  method GetMapArgument(e: Engine, entries: seq<MapEntry>) returns (r: Result<JsValue>)
    ensures r == MapArgument(e, entries)
  {
    var props: seq<Property> := [];
    for i := 0 to |entries|
      invariant |props| == i
      invariant forall j :: 0 <= j < i ==> ConvertArgument(e, entries[j].value).Ok?
      invariant forall j :: 0 <= j < i ==>
                  props[j] == Property(entries[j].key, ConvertArgument(e, entries[j].value).value)
    {
      var converted := ConvertArgument(e, entries[i].value);
      if converted.Err? {
        MapArgumentFailsAt(e, entries, i);
        return Err(converted.status);
      }
      props := props + [Property(entries[i].key, converted.value)];
    }
    MapArgumentAllOk(e, entries, props);
    r := Ok(JsObject(props));
  }

  /** The first entry that cannot be converted decides the map argument. */
  lemma MapArgumentFailsAt(e: Engine, entries: seq<MapEntry>, k: int)
    requires 0 <= k < |entries| && ConvertArgument(e, entries[k].value).Err?
    requires forall j :: 0 <= j < k ==> ConvertArgument(e, entries[j].value).Ok?
    ensures MapArgument(e, entries) == Err(ConvertArgument(e, entries[k].value).status)
  {
    var outcomes := EntryOutcomes(e, entries);
    assert FailsFirstAt(outcomes, k);
    var r := MapArgument(e, entries);
    var k' :| FailsFirstAt(outcomes, k') && r.status == ConvertArgument(e, entries[k'].value).status;
    assert k' == k;
  }

  /** When every entry converts, the map argument holds exactly the converted properties. */
  lemma MapArgumentAllOk(e: Engine, entries: seq<MapEntry>, props: seq<Property>)
    requires |props| == |entries|
    requires forall j :: 0 <= j < |entries| ==> ConvertArgument(e, entries[j].value).Ok?
    requires forall j :: 0 <= j < |entries| ==>
               props[j] == Property(entries[j].key, ConvertArgument(e, entries[j].value).value)
    ensures MapArgument(e, entries) == Ok(JsObject(props))
  {
    assert MapArgument(e, entries).value.props == props;
  }

  /** The argument-building half of InvokeFunctionOnce. */
  method BuildArguments(e: Engine, input: Message, options: FunctionOptions) returns (r: Result<seq<JsValue>>)
    ensures r == Arguments(e, input, options)
  {
    if !options.flattenFunctionArguments {
      var converted :- ConvertArgument(e, input);
      return Ok([converted]);
    }
    var args: seq<JsValue> := [];
    for i := 0 to |input.fields|
      invariant |args| == i
      invariant forall j :: 0 <= j < i ==> FieldArgument(e, input.fields[j].value).Ok?
      invariant forall j :: 0 <= j < i ==> args[j] == FieldArgument(e, input.fields[j].value).value
    {
      var arg: Result<JsValue>;
      match input.fields[i].value {
        case MessageField(m) =>
          arg := ConvertArgument(e, m);
        case MapField(entries) =>
          arg := GetMapArgument(e, entries);
        case DoubleField(d) =>
          arg := Ok(JsNumber(d));
        case ScalarField(_) =>
          arg := Err(FailedPreconditionError(UNSUPPORTED_ARGUMENT));
      }
      if arg.Err? {
        FailFastFirstFailure(FieldOutcomes(e, input.fields), i);
        return Err(arg.status);
      }
      args := args + [arg.value];
    }
    FailFastAllOk(args, FieldOutcomes(e, input.fields));
    r := Ok(args);
  }

  /** WaitForPromise: run microtask checkpoints while the promise is pending and budget remains. */
  method WaitForPromise(e: Engine, pid: nat) returns (r: Result<JsValue>)
    ensures r == WaitOutcome(e, pid)
  {
    var checkpoints := 0;
    while e.promiseState(pid, checkpoints).Pending? && checkpoints < e.asyncWaitBudget
      invariant checkpoints <= e.asyncWaitBudget
      invariant SettleIndex(e, pid, checkpoints) == SettleIndex(e, pid, 0)
      decreases e.asyncWaitBudget - checkpoints
    {
      checkpoints := checkpoints + 1;
    }
    match e.promiseState(pid, checkpoints) {
      case Fulfilled(v) => r := Ok(v);
      case Rejected(reason) => r := Err(InvalidArgumentError(ASYNC_FAILED + reason));
      case Pending => r := Err(InvalidArgumentError(ASYNC_TIMED_OUT));
    }
  }

  /** InvokeFunctionWithJsonInput. */
  method InvokeFunctionWithJsonInput(e: Engine, args: seq<JsValue>, g: Globals)
    returns (r: Result<JsValue>, g': Globals)
    ensures Step(r, g') == Invoke(e, args, g)
  {
    var loaded := ReadGlobal(e, g, INTERNAL_FUNCTION_NAME);
    if loaded.Threw? {
      return Err(InternalError(LOAD_FAILED + loaded.message)), g;
    }
    var fn := loaded.value;
    if !fn.JsFunction? {
      return Err(InternalError(NOT_A_FUNCTION)), g;
    }
    var eff := e.call(fn, args, g);
    g' := eff.globals;
    match eff.completion {
      case Threw(m) =>
        r := Err(InternalError(EXECUTION_FAILED + m));
      case Normal(v) =>
        if v.JsPromise? {
          r := WaitForPromise(e, v.pid);
        } else {
          r := Ok(v);
        }
    }
  }

  /** InvokeFunctionOnce. */
  method InvokeFunctionOnce(e: Engine, input: Message, g: Globals, options: FunctionOptions)
    returns (r: Result<JsValue>, g': Globals)
    ensures Step(r, g') == InvokeOnce(e, input, g, options)
  {
    var args := BuildArguments(e, input, options);
    if args.Err? {
      return Err(args.status), g;
    }
    r, g' := InvokeFunctionWithJsonInput(e, args.value, g);
  }

  /** WarmUpBiddingFunction: ten invocations on the default input; errors are ignored. */
  method WarmUpBiddingFunction(e: Engine, g: Globals, options: FunctionOptions)
    returns (s: Status, g': Globals)
    ensures s == OkStatus
    ensures g' == WarmUp(e, g, options, WARM_UP_ITERATIONS)
  {
    g' := g;
    for i := 0 to WARM_UP_ITERATIONS
      invariant WarmUp(e, g', options, WARM_UP_ITERATIONS - i) == WarmUp(e, g, options, WARM_UP_ITERATIONS)
    {
      var ignored;
      WarmUpStep(e, g', options, WARM_UP_ITERATIONS - i);
      ignored, g' := InvokeFunctionOnce(e, e.defaultInput, g', options);
    }
    s := OkStatus;
  }

  /** One warm-up call, then the rest. */
  lemma WarmUpStep(e: Engine, g: Globals, options: FunctionOptions, n: nat)
    requires n > 0
    ensures WarmUp(e, g, options, n) == WarmUp(e, InvokeOnce(e, e.defaultInput, g, options).globals, options, n - 1)
  {
  }

  /** BiddingFunction::Create. */
  method Create(e: Engine, source: string, options: FunctionOptions) returns (r: Result<CompiledFunction>)
    ensures r == CreateResult(e, source, options)
  {
    if !e.sourceString(source) {
      return Err(InternalError(NO_SOURCE_STRING));
    }
    var compiled := e.compile(source);
    if compiled.Threw? {
      return Err(InvalidArgumentError(COMPILE_FAILED + compiled.message));
    }
    var run := e.run(compiled.value, e.newContext);
    if run.completion.Threw? {
      return Err(InvalidArgumentError(RUN_FAILED + run.completion.message));
    }
    var fn := run.completion.value;
    if !fn.JsFunction? {
      var declared := ReadGlobal(e, run.globals, DeclarationName(e.kind));
      if declared.Threw? {
        return Err(InvalidArgumentError(
          NO_DECLARED_FUNCTION + declared.message));
      }
      fn := declared.value;
      if !fn.JsFunction? {
        return Err(InvalidArgumentError(
          DECLARED_NOT_A_FUNCTION));
      }
    }
    if !e.setGlobal(run.globals, INTERNAL_FUNCTION_NAME) {
      return Err(InternalError(STORE_FAILED));
    }
    var g := run.globals[INTERNAL_FUNCTION_NAME := fn];
    var warmed, snapshot := WarmUpBiddingFunction(e, g, options);
    r := Ok(CompiledFunction(snapshot, options));
  }

  /** One input of a batch: invoke, then convert the result to the output message. */
  method InvokeAndConvert(e: Engine, input: Message, g: Globals, options: FunctionOptions)
    returns (output: Result<Message>, g': Globals)
    ensures output == OutputOf(e, InvokeOnce(e, input, g, options).result)
    ensures g' == InvokeOnce(e, input, g, options).globals
  {
    var value;
    value, g' := InvokeFunctionOnce(e, input, g, options);
    output := OutputOf(e, value);
  }

  /** BiddingFunction::BatchInvoke: one context per batch, fail-fast over the inputs. */
  method BatchInvoke(e: Engine, f: CompiledFunction, inputs: seq<Message>) returns (r: Result<seq<Message>>)
    ensures r == BatchResult(e, f, inputs)
  {
    ghost var all := BatchOutcomes(e, f.options, inputs, f.snapshot);
    var g := f.snapshot;
    var outputs: seq<Message> := [];
    assert inputs[0..] == inputs;
    assert all == Successes(outputs) + BatchOutcomes(e, f.options, inputs[0..], g);
    for i := 0 to |inputs|
      invariant |outputs| == i
      invariant all == Successes(outputs) + BatchOutcomes(e, f.options, inputs[i..], g)
    {
      BatchOutcomesAt(e, f.options, inputs, i, g);
      var output, g' := InvokeAndConvert(e, inputs[i], g, f.options);
      ghost var later := BatchOutcomes(e, f.options, inputs[i + 1..], g');
      if output.Err? {
        FailureAfterSuccesses(outputs, output, later);
        return Err(output.status);
      }
      SuccessAfterSuccesses(outputs, output.value, later);
      outputs := outputs + [output.value];
      g := g';
    }
    assert inputs[|inputs|..] == [];
    assert all == Successes(outputs) + [];
    assert Successes(outputs) + [] == Successes(outputs);
    FailFastAllOk(outputs, Successes(outputs));
    r := Ok(outputs);
  }
}
