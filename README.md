# Trusted worklet server: a Dafny model of its core

The trusted worklet server runs FLEDGE-style ad auctions. Bidding functions
(`generateBid`) and ad scoring functions (`scoreAd`) are JavaScript sources. They
are listed in a YAML configuration, fetched from their URIs or taken inline,
compiled, and kept in a function repository that is rebuilt periodically. An
auction request asks every interest group of a configured buyer for a bid. Every
bid is scored by the seller's function, and the server answers with the most
desirable positive bid and the ranked losers.

Functions run either in process, on V8 (`function/bidding_function.cc`), or in a
sandbox. In the sandbox, a host-side stub (`function/sapi_bidding_function.cc`)
talks over a comms channel to a sandboxee (`function/bidding_function_sapi_adapter*.cc`).
Statuses cross the channel as the comms library's own status frames (`SendStatus`/`RecvStatus`).
`util/status_encoding` converts between an `absl::Status` and a `google.rpc.Status` message.

This project models that core in Dafny, one module per source file:

| module | source |
|---|---|
| `Status` | absl `Status`/`StatusOr` and `util/status_macros.h` |
| `StatusEncoding` | `util/status_encoding.cc` |
| `FunctionInterface` | `function/bidding_function_interface.h` |
| `BiddingFunction` | `function/bidding_function.cc`; V8 is a record of oracle functions |
| `Comms` | the sandbox channel, as a class over a pair of frame queues |
| `SandboxAdapter` | `function/bidding_function_sapi_adapter.{h,cc}` |
| `SandboxMain` | `function/bidding_function_sapi_adapter_main.cc` |
| `SapiBiddingFunction` | `function/sapi_bidding_function.cc` |
| `FunctionRepository` | `server/function_repository.cc` |
| `FunctionSource` | `server/function_source.cc` |
| `AdAuctions` | `server/ad_auctions.cc` |
| `UnusedPort` | `util/unused_port.cc` |

Code that changes state step by step becomes a class or a method with loops:
- the sandboxee's compiled-function slot;
- the comms channel;
- the host's sandbox;
- the auction service and its repository;
- the remembered port.

Each such method is proved against a specification function, and the properties
are stated as lemmas about those functions.

Two details of the code worth noting:
- **One context per batch.** `BatchInvoke` creates one V8 context from the snapshot for the whole batch, not one per invocation. Globals a function changes are therefore seen by the later inputs of the same batch.
- **Dead length check.** The `m.size() < kPathGroup` test in `GetFunctionCode` can never be true after a full regex match, so it is not modelled as a separate branch.

## Model

| member | source | states |
|---|---|---|
| Status.Upsert | util/status_encoding.cc:48-50 | Setting a payload replaces the payload that has the same type URL, or appends it when there is none. The new payload is present, type URLs stay distinct, every payload with another URL is kept, and nothing else is added. |
| Status.SetPayload | util/status_encoding.cc:48-50 | An OK status ignores payloads. Otherwise the code and message are kept, the payload is present afterwards, and a valid status stays valid. |
| Status.ToStatus | util/status_macros.h:39-51 | A `StatusOr` turns into its status: OK for a value, the error status otherwise. |
| Status.ReturnIfError | util/status_macros.h:69-77 | A failing status is returned unchanged; an OK one lets the rest run. |
| Status.AssignOrReturn | util/status_macros.h:116-127 | An error propagates its status unchanged; a value is bound and the rest runs on it. |
| Status.RunStepsReturnsFirstFailure | util/status_macros.h:69-77 | A chain of RETURN_IF_ERROR steps is OK iff every step is OK. Otherwise it returns exactly the status of the first failing step. |
| Status.ColonDashIsAssignOrReturn | util/status_macros.h:116-127 | Dafny's `:-` on a `Result` behaves exactly like ASSIGN_OR_RETURN. |
| StatusEncoding.Details | util/status_encoding.cc:27-31 | One `Any` detail per payload, in order, carrying its type URL and value. |
| StatusEncoding.SaveStatusToProto | util/status_encoding.cc:19-32 | The code is always overwritten. The message is overwritten only when non-empty. One detail per payload is appended to the details already there. Into an empty proto this gives exactly the encoding. |
| StatusEncoding.Encode | util/status_encoding.cc:19-32 | The encoding keeps code and message and has one detail per payload, in order, with its type URL and value. |
| StatusEncoding.StatusFromProto | util/status_encoding.cc:34-52 | Code 0 decodes to OK. Any other code keeps code and message. For every type URL among the details, the payload holds the value of the last detail with that URL. No payload has a URL that no detail carries. The result is always a valid status. |
| StatusEncoding.RestoreKeepsFields | util/status_encoding.cc:48-50 | Restoring details keeps the status valid and every type URL already present, and adds every detail's type URL. |
| StatusEncoding.RestorePayloads | util/status_encoding.cc:45-51 | Restoring never changes code or message, and an OK status ignores every detail. |
| StatusEncoding.RestoreKeepsOtherPayloads | util/status_encoding.cc:45-51 | A payload whose type URL no detail carries survives restoring. |
| StatusEncoding.RestoreTakesLastDetails | util/status_encoding.cc:45-51 | The last detail with each type URL ends up among the payloads, with its value: later details overwrite earlier ones. |
| StatusEncoding.RestoreAddsOnlyDetails | util/status_encoding.cc:45-51 | Every payload after restoring was there before under a URL no detail carries, or is the last detail with its URL. |
| StatusEncoding.StatusRoundTrip | util/status_encoding.cc:19-52 | Decoding the encoding of a valid status gives back the same status, payloads included. |
| StatusEncoding.RestoreAppends | util/status_encoding.cc:48-50 | Re-adding the encoded payloads of a valid status after any prefix of them rebuilds the status exactly. |
| FunctionInterface.FailFast | function/bidding_function_interface.h:43-51 | A batch succeeds iff every invocation does. It then returns every output in invocation order; otherwise it returns the status of the first failing invocation. |
| FunctionInterface.FailFastFirstFailure | function/bidding_function_interface.h:43-51 | Once invocation k is the first to fail, the batch's status is its status, whatever comes later. |
| FunctionInterface.FailFastAllOk | function/bidding_function_interface.h:43-51 | When every invocation succeeds, the batch returns exactly their outputs. |
| FunctionInterface.Successes | function/bidding_function_interface.h:43-51 | Wraps outputs as per-invocation successes, in order. |
| BiddingFunction.DeclarationName | function/bidding_function.cc:300-311 | The bidding kind declares `generateBid` and the ad scoring kind `scoreAd`. Neither is the internal name the function is stored under. |
| BiddingFunction.ConvertArgument | function/bidding_function.cc:156-166 | A message that MessageToJsonString cannot convert is INTERNAL "Unable to convert a bidding function input.". JSON that JSON::Parse refuses is INTERNAL "Missing expected V8 value.". Otherwise the argument is exactly the parsed value of the message's JSON. |
| BiddingFunction.EntryOutcomes | function/bidding_function.cc:189-219 | One conversion outcome per map entry, in order. |
| BiddingFunction.MapArgument | function/bidding_function.cc:189-219 | A map converts iff every entry's value does. The result is an object with one property per entry, key to converted value. Otherwise the first failing entry's status is returned. |
| BiddingFunction.FieldArgument | function/bidding_function.cc:227-256 | The flattening type rule, per case. A message field converts like a whole input. A map field becomes the map argument. A double is passed as that number and cannot fail. Any other type is FAILED_PRECONDITION "Only message, map or double arguments are supported". |
| BiddingFunction.FieldOutcomes | function/bidding_function.cc:227-256 | One argument outcome per declared field, in declaration order. |
| BiddingFunction.Arguments | function/bidding_function.cc:221-263 | Flattened: one argument per field in declaration order, or the first field failure. Not flattened: the whole message converted to a single JSON argument. |
| BiddingFunction.UnsupportedFieldRejected | function/bidding_function.cc:252-254 | When flattening, the first field of an unsupported type rejects the input with FAILED_PRECONDITION "Only message, map or double arguments are supported". |
| BiddingFunction.SettleIndex | function/bidding_function.cc:114-135 | The checkpoint where waiting stops: every earlier one is pending, and within the budget the promise has settled there. |
| BiddingFunction.WaitOutcome | function/bidding_function.cc:114-135 | Waiting on a promise fails only with INVALID_ARGUMENT. |
| BiddingFunction.PromiseTimesOut | function/bidding_function.cc:114-135 | The wait times out iff the promise is still pending at every checkpoint of the budget. |
| BiddingFunction.PromiseSettles | function/bidding_function.cc:114-135 | A promise first settled at checkpoint k yields its value when fulfilled, and a rejection error when rejected. |
| BiddingFunction.Invoke | function/bidding_function.cc:97-187 | A stored function that throws on load is INTERNAL "Cannot load the function: " plus the message, and one that is not callable is INTERNAL "Script did not return a function."; neither is called and the globals stay. Otherwise the globals are those the call left. A throw is INTERNAL "Function execution failed: " plus the message. A promise gives the wait's outcome, and any other value is returned as it is. |
| BiddingFunction.InvokeOnce | function/bidding_function.cc:221-263 | Arguments that cannot be built are that failure, with no call and the globals unchanged. Otherwise it is exactly the invocation on the built arguments. |
| BiddingFunction.ConvertOutput | function/bidding_function.cc:137-154 | A value that cannot be stringified is INTERNAL "Unable to serialize function output to JSON.". JSON that does not parse into the output message is FAILED_PRECONDITION "Unable to convert the bidding function output from JSON: " plus the parser's message. Otherwise the result is the parsed message. |
| BiddingFunction.OutputOf | function/bidding_function.cc:137-154 | An invocation error is returned unchanged. A value is the result of ConvertOutput on it. |
| BiddingFunction.BatchOutcomes | function/bidding_function.cc:398-418 | One outcome per input, each error a failing status. |
| BiddingFunction.BatchResult | function/bidding_function.cc:398-418 | A failed batch carries a failing status. |
| BiddingFunction.BatchInvokeContract | function/bidding_function.cc:398-418 | The in-process function keeps the interface contract: one output per input, in order, each the invocation's own output. On failure it returns the first failing invocation's status. |
| BiddingFunction.BatchStartsFromSnapshot | function/bidding_function.cc:398-418 | The first input of every batch runs on the globals saved in the snapshot, whatever earlier batches did. |
| BiddingFunction.WarmUpRunsEachIteration | function/bidding_function.cc:268-278 | Warm-up calls the function once per iteration. If the stored function adds one to a global counter on each call, n iterations advance the counter by exactly n and change nothing else. |
| BiddingFunction.CountingEngineCounts | function/bidding_function_test.cc:524-540 | An engine running the counting script of the DoesNotReuseContext test satisfies the counting premise, so that premise can hold. |
| BiddingFunction.CountingScriptRuns | function/bidding_function_test.cc:524-540 | On that engine the script compiles and runs to its function, with the counter at 0 and the stored function readable. |
| BiddingFunction.CountingScriptSnapshot | function/bidding_function_test.cc:524-540 | Creating the counting script succeeds, and the counter in its snapshot is 10. |
| BiddingFunction.CreateResult | function/bidding_function.cc:313-380 | V8 refusing the source string is INTERNAL "Unable to create a script source string.". A compile or run exception is INVALID_ARGUMENT with its message. A script that ran goes on to StoreAndWarmUp. Every failure is INVALID_ARGUMENT or INTERNAL, and success keeps the requested options. |
| BiddingFunction.SelectFunction | function/bidding_function.cc:343-357 | A callable completion value is selected as it is. Otherwise the global of the declared FLEDGE name is read: its getter's exception, or its value. |
| BiddingFunction.StoreAndWarmUp | function/bidding_function.cc:343-371 | An exception reading the declared name is INVALID_ARGUMENT "Cannot get function named according to FLEDGE API conventions: " plus the message. A selected value that is not callable is INVALID_ARGUMENT. A store V8 refuses (SetFunctionValue, lines 84-95) is INTERNAL "Could not set global GenerateBid.". Success comes iff the selection is callable and the store succeeds. The snapshot is then the globals after ten warm-up calls, starting with the function stored under the internal name. |
| BiddingFunction.CreateStoresCallable | function/bidding_function.cc:313-371 | A successful Create compiled and ran the script. It stored a callable: the completion value when that is callable, otherwise the declared global. Its snapshot is the warm-up of exactly that function. |
| BiddingFunction.WarmUp | function/bidding_function.cc:268-278 | The globals after n warm-up calls on the default input, errors ignored. Warm-up changes only what the calls change: for a function that leaves the global object alone, the snapshot is the stored globals. |
| BiddingFunction.WarmUpLastCall | function/bidding_function.cc:268-278 | The warm-up calls run one after another: the last of n runs on the globals the first n - 1 left. |
| BiddingFunction.SnapshotHoldsWarmUpCalls | function/bidding_function.cc:366-371 | Suppose the script's selected function counts its calls in a global that starts at 0. Then a successful Create's snapshot holds the counter at 10, the ten warm-up calls. |
| BiddingFunction.GetMapArgument | function/bidding_function.cc:189-219 | The loop builds exactly the map argument of its entries. |
| BiddingFunction.BuildArguments | function/bidding_function.cc:221-263 | The loop over fields builds exactly the argument list of the input. |
| BiddingFunction.WaitForPromise | function/bidding_function.cc:114-135 | The polling loop gives exactly the wait outcome of the promise. |
| BiddingFunction.InvokeFunctionWithJsonInput | function/bidding_function.cc:168-187 | Gives exactly the outcome and globals of one invocation. |
| BiddingFunction.InvokeFunctionOnce | function/bidding_function.cc:221-263 | Gives exactly the outcome and globals of one invocation on one input. |
| BiddingFunction.InvokeAndConvert | function/bidding_function.cc:412-415 | One step of the batch loop: the converted output of one invocation, and the globals it left. |
| BiddingFunction.WarmUpBiddingFunction | function/bidding_function.cc:268-278 | Warm-up always reports OK, and its globals are those of ten invocations. |
| BiddingFunction.Create | function/bidding_function.cc:313-380 | Gives exactly the creation result for the engine, source and options. |
| BiddingFunction.BatchInvoke | function/bidding_function.cc:398-418 | Gives exactly the batch result, hence the interface contract. |
| Comms.Send | function/sapi_bidding_function.cc:112-119 | A send succeeds iff the channel has room. It then appends exactly the frame; a failed send changes nothing. |
| Comms.Receive | function/sapi_bidding_function.cc:121-151 | A receive fails iff nothing is pending. Otherwise it takes exactly the oldest frame and leaves the outgoing side alone. |
| Comms.Comms.constructor | function/bidding_function_sapi_adapter_main.cc:79 | A new channel shows exactly the given queues. |
| Comms.Comms.SendFrame | function/sapi_bidding_function.cc:112-119 | The channel's new state is that of a send. |
| Comms.Comms.RecvFrame | function/sapi_bidding_function.cc:121-151 | The channel's new state is that of a receive. |
| SandboxAdapter.DecodeOp | function/bidding_function_sapi_adapter.h:29-41 | A received tag names the operation whose code it is, or none when no operation has that code. |
| SandboxAdapter.OpCodesDistinct | function/bidding_function_sapi_adapter.h:29-41 | The three operation codes are distinct, and decoding a code gives its operation back. |
| SandboxAdapter.UnpackAll | function/bidding_function_sapi_adapter.cc:77-82 | Unpacking succeeds iff every `Any` unpacks, giving one message per `Any` in order. |
| SandboxAdapter.PackAll | function/bidding_function_sapi_adapter.cc:38-46 | One packed `Any` per output, in order. |
| SandboxAdapter.CompileStep | function/bidding_function_sapi_adapter.cc:48-66 | An unknown type is refused with its name. A failure leaves the slot unchanged. An occupied slot never changes. A creation error is returned as it is, even when the slot is occupied. A created function meeting an occupied slot is FAILED_PRECONDITION "Function has already been initialized within the sandbox.". Success comes iff the slot is empty, the type is known and the engine creates the function. The slot then holds the type and exactly the function Create made from the spec's source and flatten flag. |
| SandboxAdapter.CompileStatuses | function/bidding_function_sapi_adapter.cc:89-102 | One status per compile request. |
| SandboxAdapter.AtMostOneCompileSucceeds | function/bidding_function_sapi_adapter.cc:89-102 | Over any sequence of compile requests, at most one succeeds, and none once a function is stored. |
| SandboxAdapter.ExecuteStep | function/bidding_function_sapi_adapter.cc:104-127 | A failed batch execution carries a failing status. |
| SandboxAdapter.ExecuteBeforeCompileFails | function/bidding_function_sapi_adapter.cc:104-127 | Executing before anything is compiled fails with FAILED_PRECONDITION. |
| SandboxAdapter.UnpackFailureStopsBeforeInvocation | function/bidding_function_sapi_adapter.cc:77-82 | Any input that does not unpack makes the batch fail with "Unable to unpack inputs". |
| SandboxAdapter.ExecutePreservesOrder | function/bidding_function_sapi_adapter.cc:68-86 | A successful execution returns one packed output per input, in order, each the function's output for that input. |
| SandboxAdapter.UnpackMessages | function/bidding_function_sapi_adapter.cc:77-82 | The loop unpacks exactly as specified. |
| SandboxAdapter.PackMessages | function/bidding_function_sapi_adapter.cc:38-46 | The loop packs exactly as specified. |
| SandboxAdapter.Worker.constructor | function/bidding_function_sapi_adapter.cc:29-36 | The sandboxee starts with an empty slot. |
| SandboxAdapter.Worker.CompileFunction | function/bidding_function_sapi_adapter.cc:89-102 | The returned status and new slot are those of the compile step, and the slot stays consistent. |
| SandboxAdapter.Worker.BatchExecuteFunction | function/bidding_function_sapi_adapter.cc:104-127 | Returns exactly the execution result for the stored function. |
| SandboxMain.Serve | function/bidding_function_sapi_adapter_main.cc:36-69 | One request consumes at least one frame. A missing tag aborts. Replies are only ever appended, and the slot stays consistent. |
| SandboxMain.ServeCompile | function/bidding_function_sapi_adapter_main.cc:42-50 | After the compile tag, the request is served and the slot stays consistent. Exactly one more frame is read. Replies are only appended. |
| SandboxMain.ServeBatch | function/bidding_function_sapi_adapter_main.cc:51-62 | After the batch tag, the request is served and the slot is unchanged. Exactly one more frame is read. Replies are only appended. |
| SandboxMain.ExitRepliesNothing | function/bidding_function_sapi_adapter_main.cc:65-67 | The exit message ends the process with code 0, with no reply and no state change. |
| SandboxMain.UnknownTagIgnored | function/bidding_function_sapi_adapter_main.cc:41-68 | An unknown tag is consumed and otherwise ignored. |
| SandboxMain.CompileRepliesWithStatus | function/bidding_function_sapi_adapter_main.cc:42-50 | A compile request gets exactly one status reply: the compile step's, or "RecvProtoBuf failed" without a spec. |
| SandboxMain.OutputsOnlyAfterOkStatus | function/bidding_function_sapi_adapter_main.cc:51-62 | A batch request never changes the slot. Outputs are sent only after an OK status reply was sent successfully. |
| SandboxMain.ServeAll | function/bidding_function_sapi_adapter_main.cc:96-99 | The serving loop only ends by exit or abort, with a consistent slot. |
| SandboxMain.LoopEndsByExitOrAbort | function/bidding_function_sapi_adapter_main.cc:96-99 | Without an exit message, the loop ends only when a tag cannot be received (the CHECK aborts). |
| SandboxMain.ServeRequest | function/bidding_function_sapi_adapter_main.cc:36-69 | The outcome, new slot and channel are those of serving one request. |
| SandboxMain.ServeRequests | function/bidding_function_sapi_adapter_main.cc:96-99 | The loop's outcome, slot and channel are those of serving until exit or abort. |
| SapiBiddingFunction.GetFunctionType | function/sapi_bidding_function.cc:47-58 | Bidding inputs select the bidding type, and scoring inputs the scoring type; never unspecified. |
| SapiBiddingFunction.GetBiddingFunctionSpec | function/sapi_bidding_function.cc:60-68 | The spec carries the source, the type of the function's kind and the flattening option unchanged. |
| SapiBiddingFunction.SpecSelectsEngineOfKind | function/sapi_bidding_function.cc:60-68 | The sandboxee compiles a spec with the engine of the host function's own kind. |
| SapiBiddingFunction.CompileExchange | function/sapi_bidding_function.cc:109-125 | Failed sends give "SendTLV failed" and "SendProtoBuf failed". A missing reply gives "RecvStatus failed". Otherwise the result is exactly the received status. |
| SapiBiddingFunction.BatchExecuteExchange | function/sapi_bidding_function.cc:127-153 | Failed sends give "SendTLV failed" and "SendProtoBuf failed". A first reply that is missing or is no status frame gives INTERNAL "RecvStatus failed". A failing status reply is returned as it is. After an OK status, an outputs frame is returned, and anything else gives INTERNAL "RecvProtoBuf failed". Each case consumes exactly the frames it read. |
| SapiBiddingFunction.UnpackOutputs | function/sapi_bidding_function.cc:180-187 | Errors pass through. Any output that does not unpack fails the batch with "Unable to unpack the function outputs."; otherwise there is one message per output, in order. |
| SapiBiddingFunction.UnpackPackAll | function/sapi_bidding_function.cc:37-45 | For a codec that round-trips, unpacking the packed inputs gives them back. |
| SapiBiddingFunction.CompileEndToEnd | function/sapi_bidding_function.cc:109-125 | The host's compile request, served by the sandboxee, yields the sandboxee's compile status. |
| SapiBiddingFunction.BatchEndToEnd | function/sapi_bidding_function.cc:127-153 | The host's batch request, served by the sandboxee, yields the sandboxee's execution result. |
| SapiBiddingFunction.BatchRequestAnswered | function/bidding_function_sapi_adapter_main.cc:51-62 | With room for two replies, a batch request is answered with its status, then the outputs when the batch succeeded. |
| SapiBiddingFunction.HostReadsReplies | function/sapi_bidding_function.cc:127-153 | From the sandboxee's well-formed replies, the host reads back exactly the result they carry, success or failure. |
| SapiBiddingFunction.SandboxedBatchMatchesInProcess | function/sapi_bidding_function.cc:170-188 | With codecs that round-trip, a sandboxed batch returns what the in-process function returns for the same inputs. |
| SapiBiddingFunction.SandboxRunsCreatedFunction | function/bidding_function_sapi_adapter.cc:48-66 | After a successful compile in a fresh sandboxee, a sandboxed batch returns what the in-process function created from that spec's source returns. |
| SapiBiddingFunction.Sandbox.constructor | function/sapi_bidding_function.cc:159 | A new sandbox is inactive with no time limit. |
| SapiBiddingFunction.Sandbox.Init | function/sapi_bidding_function.cc:160 | Initialisation reports the library's status and activates the sandbox iff that is OK. |
| SapiBiddingFunction.Sandbox.SetWallTimeLimit | function/sapi_bidding_function.cc:162-166 | An active sandbox takes the limit. An inactive one refuses with UNAVAILABLE and keeps its limit. |
| SapiBiddingFunction.Sandbox.CompileFunction | function/sapi_bidding_function.cc:109-125 | Result and channel are those of the compile exchange. |
| SapiBiddingFunction.Sandbox.BatchExecute | function/sapi_bidding_function.cc:127-153 | Result and channel are those of the batch exchange. |
| SapiBiddingFunction.SapiFunction.constructor | function/sapi_bidding_function.cc:190-194 | Keeps the sandbox and options; the execution limit is one second. |
| SapiBiddingFunction.SapiFunction.BatchInvoke | function/sapi_bidding_function.cc:170-188 | Arms the one-second limit, exchanges the batch, disarms the limit, then unpacks. An inactive sandbox fails at the first limit with nothing sent. Otherwise the result is the unpacked exchange and the limit ends disarmed. |
| SapiBiddingFunction.Create | function/sapi_bidding_function.cc:155-168 | A failing Init is returned with nothing sent. Otherwise the result comes from setting the five-second compile limit, compiling, and disarming the limit, and success yields a fresh function over a fresh sandbox. |
| FunctionRepository.GetBiddingFunction | server/function_repository.cc:21-35 | NOT_FOUND iff the URI is not configured. UNAVAILABLE iff its function failed to compile. Otherwise exactly the stored function. |
| FunctionRepository.GetAdScoringFunction | server/function_repository.cc:37-51 | The same three cases for ad scoring functions. |
| FunctionRepository.KindsAreSeparate | server/function_repository.cc:53-65 | Bidding lookups never depend on the ad scoring functions, and the other way round. |
| FunctionSource.SplitScheme | server/function_source.cc:56-67 | The optional lower-case scheme and the rest re-form the URI. |
| FunctionSource.ParsePath | server/function_source.cc:56-67 | A parsed path is valid and renders back to its text. |
| FunctionSource.ParsePortAndPath | server/function_source.cc:56-67 | A parsed port and path are valid and render back to their text. |
| FunctionSource.ParseUrl | server/function_source.cc:56-75 | Every match is well formed and renders back to the URI it came from. |
| FunctionSource.ParseUrlComplete | server/function_source.cc:56-67 | Every well-formed match is found again by parsing its rendering. |
| FunctionSource.ParseUrlMatchesPattern | server/function_source.cc:56-75 | A URI parses iff it is the rendering of some well-formed match, i.e. iff the URL pattern matches it. Matching is over bytes, so `.` excludes only line feed and carriage return. |
| FunctionSource.SeparatorsInPathAccepted | server/function_source.cc:56-67 | A path holding U+2028 or U+2029 still matches: on a byte string these are not line terminators. |
| FunctionSource.TranslateResponse | server/function_source.cc:25-42 | The body is returned iff the status is 200. 400 is INVALID_ARGUMENT and 404 NOT_FOUND, each with its message. 401 and 403 are PERMISSION_DENIED "Unauthenticated or unauthorized request. HTTP status code:" followed by the code. Every other status is INTERNAL "Unable to fetch a URL". |
| FunctionSource.GetFunctionCode | server/function_source.cc:50-98 | A non-matching URI is "Not a valid URL". A URI without a scheme is not a valid remote URI. |
| FunctionSource.InvalidUrlRejected | server/function_source.cc:72-75 | A URI that is no rendering of a match is rejected as not a valid URL. |
| FunctionSource.EmptyUriRejected | server/function_source.cc:72-75 | The empty URI is rejected as not a valid URL. |
| FunctionSource.HostOnlyUriIsNotRemote | server/function_source.cc:77-79 | A bare host name is rejected as not a valid remote URI. |
| FunctionSource.LocalSchemeNeverFetches | server/function_source.cc:80-86 | A `local:` URI returns the inline source when present, and fails otherwise. It never fetches. |
| FunctionSource.RemoteSchemeFetchesUri | server/function_source.cc:90-97 | Any other scheme fetches scheme, host and port with the path. Together they are the URI, and the fetched response is translated. |
| AdAuctions.Uris | server/ad_auctions.cc:132-147 | A URI is collected iff some specification names it. |
| AdAuctions.ProductionResolver | server/ad_auctions.cc:136-138 | The production resolver only resolves URIs that match the URL pattern and have a scheme. |
| AdAuctions.SourceCodes | server/ad_auctions.cc:132-147 | Collecting succeeds iff every specification resolves and no URI repeats. Then the map's keys are exactly the specified URIs, each mapped to its resolved source. A failure comes from the first specification that does not resolve or repeats an earlier URI. Every specification before it resolved with a fresh URI. The status is its resolver error, or the duplicate error for its URI. |
| AdAuctions.SourceCodesFrom | server/ad_auctions.cc:132-147 | The collection loop from a partial map. What was already collected is kept, since an insert never overwrites. Only a specification can fail the loop. |
| AdAuctions.SourceCodesFromOk | server/ad_auctions.cc:132-147 | Collecting succeeds iff every specification resolves and no URI repeats. |
| AdAuctions.SourceCodesFromContents | server/ad_auctions.cc:132-147 | On success the map holds exactly the earlier URIs plus every specification's URI. Each maps to its resolved source. |
| AdAuctions.SourceCodesFromFailure | server/ad_auctions.cc:132-147 | A failure is that of the first specification that does not resolve or whose URI is already collected: its resolver error, or its duplicate error. |
| AdAuctions.SourceCodesFromFailsAt | server/ad_auctions.cc:132-147 | Conversely, that first failing specification decides the loop's error. |
| AdAuctions.CollectionFailsAt | server/ad_auctions.cc:132-147 | GetFunctionSourceCodes returns exactly the error of the first specification that does not resolve or repeats a URI. |
| AdAuctions.GetFunctionSourceCodes | server/ad_auctions.cc:132-147 | The loop collects exactly the specified source codes. |
| AdAuctions.Placeholders | server/ad_auctions.cc:164-180 | Every URI gets an entry. The entry holds the compiled function iff compilation succeeded. |
| AdAuctions.BuildRepository | server/ad_auctions.cc:149-205 | Building succeeds iff both kinds' source codes are collected. The bidding collection's error is returned as it is. If the bidding sources collect, the scoring collection's error is returned as it is. |
| AdAuctions.LookupAfterBuild | server/ad_auctions.cc:149-205 | After a build, a bidding URI is NOT_FOUND iff no specification names it. A named one is its compiled function, or UNAVAILABLE when it did not compile. |
| AdAuctions.ScoringLookupAfterBuild | server/ad_auctions.cc:149-205 | The same three cases for ad scoring URIs. |
| AdAuctions.ResolveErrorFailsBuild | server/ad_auctions.cc:149-158 | An ad scoring function whose source cannot be resolved fails the whole build. If the bidding sources collect and it is the first scoring specification to fail, the build returns its resolver error. |
| AdAuctions.CompileAll | server/ad_auctions.cc:164-180 | The compile loop stores exactly the placeholders. |
| AdAuctions.CreateFunctionRepository | server/ad_auctions.cc:149-205 | Gives exactly the repository build. |
| AdAuctions.CreateBiddingFunctionInput | server/ad_auctions.cc:67-97 | The input copies the group and auction signals. It carries per-buyer signals iff the configuration has some for the group's owner. |
| AdAuctions.CreateAdScoringInputs | server/ad_auctions.cc:99-116 | The input carries the configuration, the ad and the bid. It carries trusted scoring signals iff some are keyed by the render URL. |
| AdAuctions.GetScoredInterestGroupBid | server/ad_auctions.cc:118-130 | The scored bid names the group and carries the bid, render URL and desirability. |
| AdAuctions.RunGenerateBidFunction | server/ad_auctions.cc:304-312 | A lookup error is returned unchanged; otherwise the looked-up function runs. |
| AdAuctions.RunScoreAdFunction | server/ad_auctions.cc:314-322 | A lookup error is returned unchanged; otherwise the looked-up function runs. |
| AdAuctions.GrpcStatus | server/ad_auctions.cc:282-286 | The gRPC status keeps the code and message. |
| AdAuctions.AuctionStep | server/ad_auctions.cc:259-288 | A group whose owner is not a buyer is skipped, and so is one whose bid fails. A bid whose scoring fails aborts with the scoring status as a gRPC status, with no payloads. A scored bid is the group's bid with its desirability. A scored bid always belongs to a buyer's group. |
| AdAuctions.ScoredBids | server/ad_auctions.cc:259-288 | On success there are at most as many bids as groups, all from buyers. A failure is exactly some group's abort status. |
| AdAuctions.GroupOutcomes | server/ad_auctions.cc:259-288 | One outcome per interest group, in request order. |
| AdAuctions.ScoredBidsCollects | server/ad_auctions.cc:259-288 | The auction's bids succeed iff no group aborts. They are then the scored outcomes in request order. Otherwise the status is that of the first group that aborts. |
| AdAuctions.LaterAbortFirst | server/ad_auctions.cc:259-288 | The first abort after a group that does not abort is the first abort of all. |
| AdAuctions.SortByDesirability | server/ad_auctions.cc:289-291 | The bids end sorted by non-increasing desirability and are a permutation of the input. |
| AdAuctions.SplitRanksBids | server/ad_auctions.cc:292-300 | Splitting the sorted bids ranks them: see RankBids. |
| AdAuctions.RanksBids | server/ad_auctions.cc:289-300 | The ranking promise: winner and losers are a permutation of the scored bids, losers non-increasing, and a winner positive and at least every loser. There is no winner only when no bid is positive. It implies that every bid is answered once, and that a winner is a bid at least as desirable as every bid. |
| AdAuctions.RankedWinnerIsBest | server/ad_auctions.cc:289-300 | A winner ranked at or above every loser, within a permutation of the bids, is one of the bids and at least as desirable as each of them. |
| AdAuctions.RankBids | server/ad_auctions.cc:289-300 | Winner and losers are a permutation of the bids. Losers are non-increasing. A winner is positive and at least every loser; with no winner no bid is positive. |
| AdAuctions.ScoreGroup | server/ad_auctions.cc:259-288 | Gives exactly the outcome of one group. |
| AdAuctions.CollectScoredBids | server/ad_auctions.cc:259-288 | The loop over groups gives exactly the scored bids or the first abort. |
| AdAuctions.AdAuctionsImpl.constructor | server/ad_auctions.cc:336-349 | Keeps the configuration, compilers, invokers and initial repository. The function source is held by reference, so each refresh is given it as it answers then. |
| AdAuctions.AdAuctionsImpl.RefreshFunctionRepository | server/ad_auctions.cc:351-360 | The repository is rebuilt from the configuration with the function source as it answers at refresh time. A successful build replaces the repository, and a failed one keeps the old one. After a success, each bidding function whose current source compiles is served as compiled from that source, so a changed remote function is picked up. |
| AdAuctions.AdAuctionsImpl.ComputeBid | server/ad_auctions.cc:233-249 | A bid is returned with OK status. A failure returns its gRPC status and no bid. |
| AdAuctions.AdAuctionsImpl.RunAdAuction | server/ad_auctions.cc:251-302 | When no group aborts, the status is OK and the response ranks exactly the scored bids, in request order before sorting. Otherwise the status is the first aborting group's, and the response is empty. |
| AdAuctions.Create | server/ad_auctions.cc:324-334 | A failed build is returned. Otherwise a fresh service starts with the built repository, the configuration, the compilers and the invokers. |
| AdAuctions.DecodeSpecification | server/ad_auctions.cc:35-54 | A node decodes iff it is a map whose `uri` reads as a non-empty string and whose `source`, if any, reads as a string. The values are those strings. |
| AdAuctions.AsString | server/ad_auctions.cc:43-50 | Only scalars and null nodes read as strings; a null node reads as "null". |
| AdAuctions.NullUriReadsAsText | server/ad_auctions.cc:46-53 | A `uri` key with no value gives the URI "null" instead of being rejected as empty. |
| AdAuctions.DecodeSpecifications | server/ad_auctions.cc:213-219 | A list decodes iff every item does, giving one specification per item in order. |
| AdAuctions.DecodeItems | server/ad_auctions.cc:213-219 | The items decode iff every one does, giving one specification each in order. |
| AdAuctions.LoadConfiguration | server/ad_auctions.cc:208-231 | An unreadable file is NOT_FOUND, and an unparsable one is a parsing failure. A parsed one loads iff both function lists decode; otherwise it is malformed. |
| AdAuctions.CreateFromFile | server/ad_auctions.cc:208-231 | A configuration error is returned. Otherwise the service is created from the loaded configuration. |
| UnusedPort.SinPort | util/unused_port.cc:48 | A port stored in `sin_port` is a 16-bit value. |
| UnusedPort.ByteSwap16 | util/unused_port.cc:48 | The high byte and low byte trade places. |
| UnusedPort.ByteSwapInvolution | util/unused_port.cc:48 | Swapping twice gives the value back. |
| UnusedPort.IsPortAvailableAsWritten | util/unused_port.cc:33-58 | As written, the probe tests the byte-swapped port, exactly as the corrected probe would test that port. |
| UnusedPort.IsPortAvailable | util/unused_port.cc:33-58 | With network byte order, the probe tests exactly the port it is given. |
| UnusedPort.FirstCandidate | util/unused_port.cc:74-81 | The search starts at the remembered port, or at 1024 when none is remembered. |
| UnusedPort.NextCandidate | util/unused_port.cc:88-90 | The next port is the following one below the ephemeral range, else 1024. |
| UnusedPort.Probes | util/unused_port.cc:82-91 | A search tries exactly the given number of ports, starting at its first one. |
| UnusedPort.Search | util/unused_port.cc:82-92 | A search answers only a port whose probe succeeded. Otherwise it fails with "Unable to find an unused TCP port.". |
| UnusedPort.FindPort | util/unused_port.cc:64-73 | An unreadable port range fails with "Unable to get ephemeral port range.". |
| UnusedPort.SearchFindsFirstAvailable | util/unused_port.cc:82-92 | The search succeeds iff some tried port is free, and answers the first free one. Otherwise it fails with "Unable to find an unused TCP port.". |
| UnusedPort.LaterProbesAvoidEphemeral | util/unused_port.cc:82-91 | Starting from a user port, every tried port is at least 1024. Every port after the first is 1024 or below the ephemeral range. |
| UnusedPort.FoundPortIsFree | util/unused_port.cc:33-93 | With the byte order corrected, the port found can be bound. |
| UnusedPort.AsWrittenReportsBusyPort | util/unused_port.cc:48 | As written, with port 1029 remembered and in use and kernel port 1284 free, the search answers 1029. |
| UnusedPort.CorrectedSkipsBusyPort | util/unused_port.cc:33-93 | Corrected, whenever 1024 is busy and 1025 is free below the ephemeral range, a first search answers 1025. |
| UnusedPort.PortFinder.constructor | util/unused_port.cc:60-61 | No port is remembered at first. |
| UnusedPort.PortFinder.FindUnusedPort | util/unused_port.cc:64-93 | Answers as the search does from the remembered port, using the corrected (`htons`) probe. A success remembers the next port; a failure changes nothing. |

## Left out

- **Concurrency.** The mutexes (`last_port_mutex_`, the repository and V8 locks) are not modelled. Every operation is atomic.
- **Periodic refresh.** The timer that drives `RefreshFunctionRepository` and the refresh interval flag (`util/periodic_function.cc`) are not part of this model. Only the refresh itself is.
- **V8.** Isolates, handle scopes, snapshot blobs and platform start-up are not modelled. Compilation, running a script, calls, JSON conversion, promise states and contexts are oracle functions of an `Engine` value. V8 API failures are whatever those oracles return.
- **Async wait budget.** The 50 ms flag is modelled as a number of microtask checkpoints, because time is not modelled.
- **Sandbox policy.** The sandbox policy, the embedded sandboxee binary, the fork server and process exit codes other than the outcome of `ServeRequest` are not modelled.
- **Sandbox library.** The SAPI library itself is not part of this model. `Init`'s status is a parameter.
- SapiBiddingFunction.Sandbox.SetWallTimeLimit: an inactive sandbox is assumed to refuse with UNAVAILABLE "Sandbox not active". The library's exact status is not part of this model.
- **Wall-time limits.** The limits are recorded but never fire, because time is not modelled.
- **Channel.** The comms channel is a pair of frame queues with a send capacity. Short writes and message encodings are folded into success or failure of a whole frame.
- **In-process or sandboxed.** The choice between in-process and sandboxed functions (the `use_sandbox2` flag) is abstracted into the `Compilers` parameter of the auction service.
- **Batches of one.** The `Invokers` parameter stands for running a function on a batch of one and taking its last output. A batch that succeeds with no output is not modelled.
- BiddingFunction.Invoke: the microtask checkpoints of a promise wait can run continuations that change globals. The model keeps the globals the call itself left, so such changes are not seen by later inputs of the batch.
- **V8 string allocation.** Creating V8 strings for the internal name, the declared name and map keys is assumed to succeed, so their "Missing expected V8 value." failures are not modelled. The same failure of `JSON::Parse` on an input is modelled. A successful `Set` of the internal name is a map update without setter side effects.
- **Struct values.** Message contents (`google.protobuf.Struct` signals, ads) are opaque string maps, and JavaScript numbers are `real`.
- AdAuctions.SortByDesirability: the order among bids of equal desirability is left open, as the unstable sort leaves it.
- **YAML.** The YAML library is reduced to node shapes. An unreadable file and a syntax error are the two cases of `ConfigFile`. A conversion that throws and a decode that returns false are both a failed decode.
- **HTTP.** The HTTP client is the `Fetcher` parameter. Transport failures are its `None` result.
- **Payload order.** Status payload order is modelled as insertion order. absl leaves the iteration order unspecified.
- **Port probe.** Socket creation, `SO_REUSEADDR`, bind and listen are folded into the `Bindable` parameter, and the port range file into the `PortRange` parameter. The maximum ephemeral port is read but unused by the source, and ignored here too.
- UnusedPort.FindPort: ports are unbounded integers, so `port + 1` cannot overflow. The first probe is the remembered port with no range test, so it can lie in or above the ephemeral range. A success just below the range remembers the range's first port, and each later success moves one port higher. In the source, `port + 1` would overflow only after about 2^31 successful searches, which the model's unbounded integers do not capture.

## Findings

| source | as written | input that shows it | evidently intended | confidence | as-written member | corrected member |
|---|---|---|---|---|---|---|
| util/unused_port.cc:48 | `sin_port` gets the port in host byte order (no `htons`), so a little-endian host probes the byte-swapped port | a previous search remembered port 1029 (0x0405), which is now in use; kernel port 1284 (0x0504) is free: the probe binds 1284, succeeds, and 1029 is returned. Neither port needs privileges | store `htons(port)` so that the probe tests the port it reports | high on little-endian hosts; not executed | UnusedPort.AsWrittenReportsBusyPort | UnusedPort.FoundPortIsFree |
