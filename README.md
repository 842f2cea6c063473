# wavefront-lambda-go, modelled in Dafny

wavefront-lambda-go wraps an AWS Lambda handler written in Go. It counts cold starts,
invocations and errors. It tags every series with fields taken from the invoked function's
ARN, and reports the series to Wavefront. The repository holds two variants of this logic,
which declare the same package globals:

- the **agent variant**: `handler.go`, `agent.go`, `counters.go` and `strings.go`. Counters
  are plain structs, series go through a Wavefront sender, and the agent's tag map is
  updated in place;
- the **go-metrics variant**: `wflambda.go` (and its copy `wrapper.go`) with `reporter.go`.
  Counters are go-metrics objects in a registry that `WavefrontOnce` reports. Reporting is
  gated by an environment flag.

Each variant is its own Dafny module, and the shared parts have modules of their own:

| module | file | models |
|---|---|---|
| `Wrappers` | wrappers.dfy | `Option` and `Result` |
| `GoValues` | go_values.dfy | Go values, errors (including the runtime panics the code can raise), Lambda contexts, handler signatures, handler outcomes |
| `Strings` | strings.dfy | strings.go: `stringToBool`, and `stringToInt` over `strconv.Atoi` as ParseInt computes it |
| `Counters` | counters.dfy | counters.go: `counter` and `Increment` |
| `Arn` | arn.dfy | `strings.Split` / `strings.Join` and the ARN point tags of handler.go:48-67 and reporter.go:57-77 |
| `Handler` | handler.dfy | handler.go: signature validation, `errorHandler`, the `newHandler` closure and result conversion |
| `Agent` | agent.dfy | agent.go: `WavefrontConfig`, `NewWavefrontAgent`, `WrapHandler`, `RegisterMetric`/`RegisterCounter`; the sender; the package globals |
| `HandlerWrapping` | handler_wrapper.dfy | handler.go: `HandlerWrapper`, `Invoke` and `wrapHandler` |
| `Reporter` | reporter.dfy | reporter.go: metric names, the environment check, `incrementCounter`/`updateGauge` |
| `LambdaWrapper` | lambda_wrapper.dfy | wflambda.go and wrapper.go: `Wrapper`, `lambdaHandlerWrapper`, `lambdaErrorHandler`; reporter.go's registration and `reportMetrics` |

Code that computes values is written as functions, with lemmas about them. Code that updates
state is written as classes and methods, following the source:

- the tag map, the counters and the series maps of the agent variant;
- the package globals and the go-metrics registry of the go-metrics variant.

`HandlerWrapper.Invoke` is stated against `InvokeSpec`, a function from the state before the
call to the state after it. The invocation properties are lemmas about that function.
`lambdaHandlerWrapper` is stated by two two-state predicates, one for a payload that does not
decode and one for a payload that does.

Go's panics are explicit results:
- an index past the end of the split ARN is `IndexOutOfRange`;
- a method call on a nil interface or a nil pointer is `NilPointerDereference`;
- `recover` and the re-raise are a `Completion` of `Return | Panic`.

Go map iteration order is a nondeterministic choice in the send loop. The method returns the
order it used as a ghost result.

Where the two variants disagree with the idealised behaviour, the model follows the code:
- handler.go returns the sender's last reply as the error, not the handler's own error;
- handler.go can count a returned error twice;
- wflambda.go panics on the first invocation when reporting is on and the payload does not
  decode, because its error counter is still nil;
- wflambda.go keeps stale metrics registered when `reportMetrics` panics.

## Model

| member | source | states |
|---|---|---|
| Strings.StringToBool | strings.go:5-11 | true exactly for the string "true"; every other string, "True" and "false" included, gives false |
| Strings.ParseUint | strings.go:14 | the unsigned digit scan of Atoi succeeds exactly on a non-empty all-digit string whose value fits in 64 bits, with that value; an all-digit string that overflows is a range error |
| Strings.ScanDigits | strings.go:14 | the digit loop of strconv: a non-digit is a syntax error, an accumulator that would pass 2^64 - 1 is a range error, and otherwise the digits accumulate left to right (ScanCorrect ties it to the numeral's value) |
| Strings.Atoi | strings.go:14 | strconv.Atoi on a 64-bit target: empty input is a syntax error; an optional sign, then the unsigned scan, a range error past the int64 bounds (one more is allowed for a minus sign), and the value negated for a minus sign |
| Strings.StringToInt | strings.go:13-19 | a value exactly when the string is an optional sign followed by digits and denotes an int64; the value is the numeral's value; otherwise an error (a range error for an out-of-range numeral), so exactly one of value and error is present |
| Strings.ItoaRoundTrip | strings.go:13-19 | every int64 written in decimal is read back unchanged |
| Strings.StringToIntExamples | strings_test.go:19-23 | "12" gives 12 (and "120", which agent_test.go sets) and "bla" gives a syntax error; signs are accepted; "", "-" and "1_0" are errors |
| Counters.Counter.constructor | counters.go:4-6 | the zero counter holds 0 |
| Counters.Counter.Increment | counters.go:9-11 | the value grows by exactly the increment |
| Counters.IncrementScenario | counters_test.go:12-17 | from zero, +2 then -3 leaves -1 |
| Counters.IncrementTwice | counters.go:9-11 | two increments have the effect of one by their sum |
| Handler.ValidateArguments | handler.go:142-156 | more than two parameters, or two without a Context first, are rejected with their errors; otherwise the result is whether the first parameter is a Context (false for none) |
| Handler.ValidateReturns | handler.go:158-172 | more than two results are rejected; two are accepted exactly when the second is an error, one exactly when it is an error; none are accepted |
| Handler.ValidationIsWellFormedness | handler.go:142-172 | the two validators together accept exactly the well-formed signatures |
| Handler.NewHandler | handler.go:176-193 | nil and non-functions give an error handler with their errors; the first failing validator's error is kept; the adapter is built exactly for well-formed signatures, with the validated takes-Context flag |
| Handler.Call | handler.go:195-233 | an error handler answers (nil, e); a decoding failure answers (nil, err) without calling the handler; otherwise the handler is called with the Context and the decoded event as taken, and its outcome converted |
| Handler.Arguments | handler.go:197-216 | the closure's argument list: the Context first when the handler takes one, then the decoded event when it takes one |
| Handler.DecodeEvent | handler.go:203-213 | the payload is marshalled and then unmarshalled into the event type; the first failure is the error returned |
| Handler.ConvertResponse | handler.go:220-232 | the error is the last result when that holds a non-nil error (nil otherwise, and for no results); the value is the first result when there are at least two |
| Handler.Dispatch | handler.go:218-232 | a panic of the user handler propagates unchanged; returned results are converted by ConvertResponse |
| Handler.RejectedHandlerAlwaysFails | handler.go:136-140 | a rejected handler answers (nil, e) for every context, payload, codec and user function |
| Handler.ArgumentsMatchSignature | handler.go:197-216 | the argument list has numIn entries; the Context is first iff taken; the event is last iff the closure decodes one |
| Handler.DecodeFailureSkipsHandler | handler.go:202-218 | after a decoding failure the answer does not depend on the user handler |
| Handler.ConvertReturns | handler.go:220-232 | (42, nil) gives (42, nil); a lone error result gives (nil, err); no results give (nil, nil) |
| Handler.ConvertLosesNothing | handler.go:220-232 | for a well-formed signature, the converted pair determines the result slots exactly |
| Arn.Split | handler.go:49 | the split of any string has at least one field |
| Arn.JoinSplit | handler.go:49 | joining the fields of a split on the separator gives back the string |
| Arn.SplitFieldsFree | handler.go:49 | no field of a split contains the separator |
| Arn.SplitJoin | reporter.go:58 | splitting a join of separator-free fields gives back the fields |
| Arn.PointTags | reporter.go:57-77 | the tags exist exactly when fields 3-5 exist, as does field 6 for a function or event-source-mapping ARN; otherwise the fault is an index-out-of-range at the first missing index |
| Arn.PointTagsContents | reporter.go:62-77 | the tags are exactly the six leading keys plus Resource (function) or EventSourceMappings (event-source-mappings); the values are the ARN, name, version, field 3, field 4, and field 6 (with ":" and field 7 when there are exactly 8 fields) |
| Arn.TagsBeforeFaultContents | handler.go:53-58 | the writes made before a fault are the four context tags, then Region and accountId as far as the ARN reaches, with the field values |
| Arn.PointTagsSplit | handler.go:53-67 | the complete tags are the leading writes followed by the resource tag |
| Arn.PointTagKeys | handler.go:53-67 | both the complete tags and the writes before a fault use only the eight ARN keys |
| Arn.FaultTagsArePrefix | handler.go:53-67 | every write made before a fault has the value the complete tag set gives that key |
| Arn.PointTagsOfFormat | handler.go:51-67 | for every well-formed function, event-source-mapping or other ARN, the tags recover its region, account and resource as the ARN syntax defines them |
| Agent.WavefrontConfig.constructor | agent.go:22-35 | a config holds exactly the given optional settings |
| Agent.WavefrontConfig.PutPointTag | handler.go:53-67 | one tag is set in the shared map; no other field changes |
| Agent.Sender.constructor | agent.go:120-128 | a sender holds its configuration, has an empty log and answers from the given replies |
| Agent.Sender.Send | handler.go:119-131 | each call is logged and answered by the next reply (none once the replies run out) |
| Agent.Sender.CloseSender | handler.go:83 | Close is logged and consumes no reply |
| Agent.Globals.constructor | agent.go:10-19 | the process starts cold with three distinct zero counters |
| Agent.ResolveEnabled | agent.go:73-80 | a non-empty WAVEFRONT_ENABLED decides (only "true" enables), else the configured value, else true |
| Agent.ReadEnabled | agent.go:73-80 | the step-by-step resolution equals ResolveEnabled |
| Agent.ResolveEndpoint | agent.go:82-92 | a non-empty environment value wins, else the configured value, else the empty string |
| Agent.ReadEndpoint | agent.go:82-92 | the step-by-step resolution equals ResolveEndpoint |
| Agent.ResolveSize | agent.go:94-118 | an environment value that parses as an int wins, else the configured value, else the default |
| Agent.WrittenSize | agent.go:99-105 | the config field takes the environment value exactly when it parses, and keeps its value otherwise |
| Agent.ReadSize | agent.go:94-118 | the step-by-step resolution equals ResolveSize, and the write-back equals WrittenSize |
| Agent.SeriesCalls | handler.go:119-131 | one sender call per series in the order |
| Agent.SeriesCallsAt | handler.go:119-131 | call i reports series i of the order with its value from the map |
| Agent.OrderingCardinality | handler.go:119 | a range over a map visits as many keys as the map has |
| Agent.SendSeries | handler.go:119-131 | the loop visits every key exactly once in some order, logs one call per key in that order, consumes one reply each, and leaves the error variable as the last reply (or unchanged for an empty map) |
| Agent.SendStep | handler.go:119-131 | one more send in the range extends the log by that series' call, consumes one reply and leaves that reply in the error variable, as the longer order says |
| Agent.PartitionStep | handler.go:119 | taking one more key out of the keys still to visit keeps the visited keys distinct and the two sets together equal to the map's keys |
| Agent.AgentScenarios | agent_test.go:10-37 | the test's cases, with its environment building up case by case, hold of the contracts: no settings leave Server nil and Enabled true; a configured Enabled is kept; WAVEFRONT_ENABLED=false turns the agent off; a configured Server and Token are kept |
| Agent.AgentSizeScenarios | agent_test.go:39-59 | a configured batch size is kept; WAVEFRONT_BATCH_SIZE=12 is written back and used; a configured MaxBufferSize of 10 is kept; WAVEFRONT_MAX_BUFFER_SIZE=120 is written back and used; beyond the test, an unparsable value leaves the configured size |
| Agent.AgentRegisterScenarios | agent_test.go:61-72 | one registered counter and one registered metric, each alone in its map; a disabled agent returns the handler unwrapped |
| Agent.Agent.constructor | agent.go:57-138 | a nil tag map becomes empty; Enabled is resolved and written back; Server and Token are not rewritten; the sizes are written back only from a parsable environment value; the sender gets the resolved server, token and sizes and a flush interval of 1; both series maps start empty |
| Agent.Agent.WrapHandler | agent.go:141-147 | the handler comes back unwrapped exactly when the agent is disabled |
| Agent.Agent.RegisterMetric | agent.go:149-151 | exactly one gauge is set, overwriting; the counters are untouched |
| Agent.Agent.RegisterCounter | agent.go:153-155 | exactly one counter is set, overwriting; the gauges are untouched |
| HandlerWrapping.WriteLeadingTags | handler.go:53-58 | the map gains exactly the leading writes; an ARN of at most three fields faults at index 3, one of four fields at index 4, and longer ones do not fault |
| HandlerWrapping.WriteResourceTag | handler.go:60-67 | the resource tag is written exactly when its field exists; otherwise the map is unchanged and the fault is at index 6 |
| HandlerWrapping.WriteArnTags | handler.go:49-67 | the writes succeed exactly when PointTags does, adding its tags to the map; a fault leaves the map with exactly the writes made before it |
| HandlerWrapping.HandlerWrapper.SetPointTags | handler.go:49-67 | the same, on the agent's shared tag map; every other setting of the config (Enabled, Server, Token, the sizes) is kept |
| HandlerWrapping.HandlerWrapper.constructor | handler.go:35-41 | a wrapper holds the agent and the handler, adapted afresh by NewHandler |
| HandlerWrapping.HandlerWrapper.Deferred | handler.go:69-84 | a counted error is incremented and reported, then Flush and Close follow |
| HandlerWrapping.HandlerWrapper.CountResult | handler.go:96-105 | a returned error is counted; the first invocation counts the cold start and clears the flag |
| HandlerWrapping.HandlerWrapper.RecordSeries | handler.go:110-117 | the cold-start and invocation counters and the four gauges are recorded in the series maps |
| HandlerWrapping.SentOfSeries | handler.go:119-131 | sending the gauges and then the counters amounts to Sent |
| HandlerWrapping.Defer | handler.go:69-84 | the deferred block before the re-raise: a counted error raises the error count and logs its delta-counter report with the new count; then Flush and Close are logged; the error report and Flush consume one reply each, Close none |
| HandlerWrapping.Counted | handler.go:96-105 | a returned error raises the error count; the first invocation of the process counts the cold start; the cold-start flag ends cleared; nothing else changes |
| HandlerWrapping.Recorded | handler.go:110-117 | the cold-start and invocation counts go into the counter map and the duration and three memory figures into the gauge map, overwriting; other entries are kept |
| HandlerWrapping.Sent | handler.go:119-131 | the log grows by the gauge calls in order mo, then the counter calls in order co; one reply per call is consumed; the error is the last reply, or the incoming error when nothing is sent |
| HandlerWrapping.ReportSpec | handler.go:69-133 | the invocation once the tags are written: the invocation count goes up; a panic goes straight to Defer and is re-raised; a return goes through Counted, Recorded and Sent, and Defer counts an error exactly when the sends leave one; the caller gets the handler's value and the sends' error |
| HandlerWrapping.InvokeSpec | handler.go:43-134 | the whole invocation as a function of the state before it: a nil Lambda context panics with nothing changed; an ARN too short for its tags panics with only the tags written before the fault added; otherwise the tags are added and ReportSpec runs on the adapted handler's outcome |
| HandlerWrapping.HandlerWrapper.SendAll | handler.go:119-131 | both maps are sent in some iteration order each; the new state and the error are those of Sent |
| HandlerWrapping.HandlerWrapper.Report | handler.go:90-133 | the invocation after the tags are written follows ReportSpec for the adapted handler's outcome |
| HandlerWrapping.HandlerWrapper.Invoke | handler.go:43-134 | the invocation follows InvokeSpec: a nil Lambda context or a short ARN panics before the defer is set up, and otherwise ReportSpec applies; the config's settings other than the tags are kept |
| HandlerWrapping.WrappedCall | handler.go:19-24 | each call builds a fresh wrapper around NewHandler(handler) and follows InvokeSpec; the agent's settings other than the tags are kept |
| HandlerWrapping.ColdStartCountedOnce | handler.go:101-105 | the cold-start count is 1 exactly once the flag is cleared, and every invocation preserves that; only a returning invocation clears it |
| HandlerWrapping.InvocationCounted | handler.go:94 | every invocation that gets past the tag writes counts one invocation, whatever the handler does; one that faults on a nil context or a short ARN counts nothing (FaultChangesOnlyTags) |
| HandlerWrapping.PanicReRaised | handler.go:69-88 | a panic is counted once, reported, followed by Flush and Close, and re-raised with the same value; nothing else changes |
| HandlerWrapping.ErrorsCountedOnReturn | handler.go:76-98 | a return gives back the handler's value; the error count grows by one for the handler's error and by one more for an error left by the sends |
| HandlerWrapping.ReturnedErrorIsLastReply | handler.go:119-133 | the returned error is the sender's reply to the last series send |
| HandlerWrapping.HandlerErrorIsOverwritten | handler.go:119-133 | when at least one counter is sent, handlers that return the same value with different errors give the caller the same pair |
| HandlerWrapping.ReportEndsWithFlushClose | handler.go:82-83 | the sender log only grows, and ends with Flush and Close |
| HandlerWrapping.FaultChangesOnlyTags | handler.go:43-67 | a nil context changes nothing; a short ARN changes only the tags written before the fault; both end in a panic |
| HandlerWrapping.ReportKeepsTags | handler.go:69-133 | reporting does not change the tag map |
| HandlerWrapping.TagsOnlyArnKeys | handler.go:53-67 | an invocation changes no tag outside the eight ARN keys |
| Reporter.StandardMetricName | reporter.go:92-99 | the name is the prefix "aws.lambda.wf.", then the metric, then "_event" iff it is an event |
| Reporter.StandardMetricNameInjective | reporter.go:92-99 | different metrics of the same kind get different names |
| Reporter.DeltaCounterName | reporter.go:30 | the delta counter name is the given name behind one U+2206 character, so the name can be read back from it |
| Reporter.CheckLambdaEnvironment | reporter.go:103-119 | an empty URL panics without looking at the token; else an empty token panics; otherwise reporting is off exactly for "False" or "false" |
| Reporter.CheckLambdaEnvironmentExamples | reporter.go:113-118 | "FALSE" and an absent flag leave reporting on, "False" turns it off, a missing URL panics |
| Reporter.MetricCounter.constructor | reporter.go:28 | a new counter holds 0 |
| Reporter.MetricGauge.constructor | reporter.go:49 | a new gauge holds 0 |
| Reporter.IncrementCounter | reporter.go:14-18 | with reporting off nothing changes; with reporting on a nil counter panics and any other counter grows by the value |
| Reporter.UpdateGauge | reporter.go:20-24 | with reporting off nothing changes; with reporting on a nil gauge panics and any other gauge takes the value |
| LambdaWrapper.RegisteredKeeps | reporter.go:31 | a registration adds a free name with the new metric and keeps a taken name's metric |
| LambdaWrapper.RegisterAll | reporter.go:26-51 | the registry after each entry is registered in turn with go-metrics Register |
| LambdaWrapper.StandardRegistry | reporter.go:26-51 | the registry after registerStandardLambdaMetrics registers the seven given metric objects under their standard names |
| LambdaWrapper.RegisterAllKeeps | reporter.go:26-51 | registering a list keeps every registered metric and adds exactly the list's names |
| LambdaWrapper.RegisterAllFirst | reporter.go:26-51 | a free name gets the metric of its first registration |
| LambdaWrapper.StandardNamesDistinct | reporter.go:26-51 | the seven standard names are pairwise distinct |
| LambdaWrapper.StandardRegistryKeeps | reporter.go:26-51 | the standard registration keeps every registered metric and adds exactly the seven names |
| LambdaWrapper.StandardRegistryFresh | reporter.go:26-51 | into a registry without the standard names, each new metric is registered under its own name |
| LambdaWrapper.StaleRegistryIsKept | wflambda.go:101-103 | a registry still holding the standard names is left as it is, so the fresh counters are not the ones reported |
| LambdaWrapper.LambdaState.RegisterStandardLambdaMetrics | reporter.go:26-51 | seven fresh metrics go into the globals, all holding zero, the three event counters distinct from the three counters, and they are registered in the source's order |
| LambdaWrapper.LambdaState.constructor | wflambda.go:29-41 | the globals start at their zero values, with coldStart true |
| LambdaWrapper.LambdaState.GetAndValidateLambdaEnvironment | reporter.go:103-119 | the outcome is CheckLambdaEnvironment; the server global is always assigned, the token global only once the server is set |
| LambdaWrapper.LambdaState.Wrapper | wflambda.go:50-65 | an environment panic stops it; otherwise the flag is stored and the takes-Context global is assigned even on a validation error; a validation error gives the error handler; success stores the handler type and gives the wrapper (the same code is at wrapper.go:36-50) |
| LambdaWrapper.CallErrorHandler | wflambda.go:138-142 | the error handler answers (nil, e) for every context and payload (the same code is at wrapper.go:121-125) |
| LambdaWrapper.LambdaState.ReportMetrics | reporter.go:54-89 | a nil context or a short ARN panics without reporting; otherwise one report of the registry with the host tags |
| LambdaWrapper.SendErrorNotReturned | reporter.go:79-88 | the send result changes neither the caller's result nor the registry left behind |
| LambdaWrapper.LambdaState.UnregisterAll | wflambda.go:82 | the registry is emptied |
| LambdaWrapper.LambdaState.Deferred | wflambda.go:69-86 | a counted error is incremented when reporting (a nil counter panics); then the report, whose panic ends the block, and the registry is emptied (the same code is at wrapper.go:53-70) |
| LambdaWrapper.LambdaState.Finish | wflambda.go:69-86 | the deferred block either replaces the result with its panic or lets the result stand after one report and the emptied registry |
| LambdaWrapper.ErroredIsErrorCompletion | wflambda.go:73-80 | an error is counted exactly when the caller gets a panic or a non-nil error |
| LambdaWrapper.ConversionsAgree | wflambda.go:117-134 | for at most two results the conversion is handler.go's; they differ only at three results |
| LambdaWrapper.ConvertLambdaResponse | wflambda.go:117-134 | no results give (nil, nil); otherwise the error is the last result when that holds a non-nil error, and the value is the first result only when there are exactly two |
| LambdaWrapper.Completed | wflambda.go:113-134 | a panic of the handler propagates; returned results are converted by ConvertLambdaResponse |
| LambdaWrapper.Errored | wflambda.go:73-80 | the deferred block counts an error for a panic and for a converted non-nil error |
| LambdaWrapper.Finished | wflambda.go:81-86 | a panic in reportMetrics replaces the result and leaves the reports and the registry as they were; otherwise one report of the registry with the host tags is logged, the registry is emptied and the result stands |
| LambdaWrapper.LambdaState.CountInvocation | wflambda.go:101-111 | when reporting, fresh counters hold the cold start (first invocation only) and one invocation; the cold-start flag is cleared either way; the event counters and the registered duration gauge dGauge then hold zero; with reporting off no counter changes and every metric global names the object it named before; the counter objects held before keep their counts, since only the fresh ones are incremented (the same code is at wrapper.go:85-95) |
| LambdaWrapper.ReportFault | reporter.go:54-77 | the panic reportMetrics raises before reporting: a nil Lambda context, or the first ARN field the host tags index that is missing |
| LambdaWrapper.LambdaState.Invoked | wflambda.go:69-134 | a decoded invocation clears the cold-start flag, leaves the counters held before the call at their counts, counts one cold start when there was one and reporting is on, leaves the event counters and dGauge at zero when reporting (nothing in the source updates them; the measured duration goes to the unregistered durationGauge), and ends as InvokedReporting or InvokedQuiet |
| LambdaWrapper.LambdaState.InvokedReporting | wflambda.go:101-116 | with reporting on: fresh counters hold the cold start, one invocation and the handler's error, and the deferred block reports the registry the fresh metrics were registered into |
| LambdaWrapper.LambdaState.InvokedQuiet | wflambda.go:69-86 | with reporting off: all seven metric globals name the same objects and the deferred block reports the registry as it was |
| LambdaWrapper.LambdaState.DecodeFailed | wflambda.go:69-97 | a payload that does not decode changes no counter but the error counter and not the cold-start flag; (nil, e) is counted as an error and reported, or the count panics on a missing error counter with reporting on |
| LambdaWrapper.LambdaState.CountAndCall | wflambda.go:101-134 | a decoded invocation ends as Invoked: counters as above, the error counter at 1 exactly for a panic or a returned error, the counter objects held before unchanged, and the converted result or the report's panic |
| LambdaWrapper.LambdaState.FailDecode | wflambda.go:95-97 | a payload that does not decode returns (nil, e) and counts one error; no other counter and not the cold-start flag changes; with reporting on and no error counter yet, that count panics (the same code is at wrapper.go:79-81) |
| LambdaWrapper.LambdaState.LambdaHandlerWrapperCall | wflambda.go:68-135 | a handler taking an event whose payload does not decode ends as DecodeFailed, before any count or call; otherwise it ends as Invoked on the argument list of handler.go (the same code is at wrapper.go:52-119) |

## Left out

- memory.go: the memory probe calls gopsutil and divides floats. Its figures are an input (`MemoryStats`).
- example.go: a demonstration program, not part of the library.
- Timing: the duration is an input in milliseconds. The report time is an input.
- The duration gauge of the go-metrics variant: `updateGaugeFloat64` is called at wflambda.go:116 but not defined in any file of the repository, and the `durationGauge` it updates is never registered. That update is left out. The `dGauge` that reporter.go registers is never updated, as in the source.
- `validateLambdaHandler` is not defined in any file of the repository. `Wrapper` takes its result as an input.
- `csEventCounter`, `invocationEventCounter`, `errEventCounter` and `dGauge` are not declared in wflambda.go. They are modelled as further globals. The event counters are registered and never incremented, as in the source.
- Reflection and JSON: the handler is a function from its arguments to an outcome. `json.Marshal`/`json.Unmarshal` are given functions.
- Sender and go-metrics I/O: the sender answers from a reply list fixed in advance, and every call is logged. `WavefrontOnce` is logged together with the reply it gives.
- A failing `NewDirectSender` (a nil sender) is not modelled: every agent has a sender.
- `os.Getenv` is a lookup in an environment map. `log.Println` has no effect.
- `log.Panicf` in `getAndValidateLambdaEnvironment` is a `Failure` carrying its message.
- Concurrency: one invocation at a time. The Go globals are not synchronised.
- `panic(nil)` is not modelled: a panic value is never nil.
- Counters.Counter.Increment: the counter is an unbounded integer rather than a float64. Integer increments are exact in a float64 only up to 2^53.
- Sender values are `real`. Float rounding is not modelled.
- Reporter.IncrementCounter: go-metrics counters are int64, and the model's count is unbounded, so int64 wrap-around is not modelled. The wrapper adds at most one per invocation.
- Strings.StringToInt: the error kind follows strconv (`ErrSyntax` or `ErrRange`), but the rest of the `*NumError` value (the function name and the input) is not carried.
- The error messages of the validators are represented by their kind (`TooManyArguments(n)` and the like), not their text.
- reporter_test.go disagrees with reporter.go, and the model follows reporter.go. The test expects the message "Environment variable …" where the code says "Environmental variable …". It sets `REPORT_STANDARD_METRICS` where the code reads `IS_REPORT_STANDARD_METRICS`. It expects "FaLsE" to turn reporting off, where the code accepts only "False" and "false".
- LambdaWrapper.LambdaState.RegisterStandardLambdaMetrics: all seven metrics are created before the seven registrations, whereas the source interleaves them. The globals and the registry end the same either way.
- HandlerWrapping.HandlerWrapper.SetPointTags: the writes build a local map that replaces the config's tag map at the end. Go writes the shared map in place. The resulting map is the same, but aliasing of that map by other holders is not modelled.
- Agent.Agent.constructor: the Go code stores a pointer to the package default when neither the environment nor the config sets a value. The model stores the value, so aliasing of `defaultEnabled` is not captured.
- LambdaWrapper.Report: a logged report holds the registered metric objects, not their values at the time of the report. Later increments of those objects are not separated from what was reported.
- Reporter.DeltaCounterName: the prefix go-metrics-wavefront puts in front of delta counter names is taken to be U+2206. That library is not part of this model.
- The ARN fields scanned with `splitArn[5]` and beyond are read only as far as the code reads them. Partitions and services are not checked.
