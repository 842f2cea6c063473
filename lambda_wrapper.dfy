/** wflambda.go and wrapper.go: the go-metrics build variant of the wrapper. The two files
    hold the same globals and the same logic (they differ only in comments), so one module
    models both.

    The package globals are the fields of `LambdaState`. go-metrics' default registry is a
    map from names to metric objects; `wavefront.WavefrontOnce` is recorded in a ghost log
    of reports, with the error it answers given as an input. */
module LambdaWrapper {
  import opened Wrappers
  import opened GoValues
  import opened Arn
  import opened Handler
  import opened Reporter

  datatype Metric = CounterMetric(counter: MetricCounter) | GaugeMetric(gauge: MetricGauge)

  /** One `WavefrontOnce` call: the host tags and the registry it reports, and the error it
      answered (only ever logged). */
  datatype Report = Report(tags: map<string, string>, registry: map<string, Metric>, sendError: Option<Error>)

  /** The registration names of reporter.go:26-51. */
  const ColdStartsName: string := DeltaCounterName(StandardMetricName("coldstarts", false))
  const ColdStartEventName: string := StandardMetricName("coldstart", true)
  const InvocationsName: string := DeltaCounterName(StandardMetricName("invocations", false))
  const InvocationEventName: string := StandardMetricName("invocation", true)
  const ErrorsName: string := DeltaCounterName(StandardMetricName("errors", false))
  const ErrorEventName: string := StandardMetricName("error", true)
  const DurationName: string := StandardMetricName("duration", false)

  /** go-metrics `Register`: a name already taken keeps its metric. */
  function Registered(registry: map<string, Metric>, name: string, m: Metric): map<string, Metric> {
    if name in registry then registry else registry[name := m]
  }

  /** Registration adds the name with the new metric when it is free, and changes nothing
      when it is taken. */
  lemma RegisteredKeeps(registry: map<string, Metric>, name: string, m: Metric)
    ensures var r := Registered(registry, name, m);
      && name in r && r[name] == (if name in registry then registry[name] else m)
      && r.Keys == registry.Keys + {name}
      && Extends(r, registry)
  {
  }

  /** The panic `reportMetrics` raises before reporting (reporter.go:56-77): a nil Lambda
      context, or an ARN too short for the host tags. */
  function ReportFault(ctx: Context, info: FunctionInfo): Option<Error> {
    if ctx.lambda.None? then Some(NilPointerDereference)
    else
      var pt := PointTags(ctx.lambda.value.invokedFunctionArn, info);
      if pt.Failure? then Some(pt.error) else None
  }

  /** wflambda.go:117-134: no results give `(nil, nil)`; otherwise the error is the last
      slot when it holds one, and the value is slot 0 only when there are exactly two. */
  function ConvertLambdaResponse(slots: seq<Value>): (Value, Option<Error>) {
    if |slots| == 0 then (Nil, None)
    else (if |slots| == 2 then slots[0] else Nil, SlotError(slots[|slots| - 1]))
  }

  /** For the at most two results a validated handler has, this conversion is the one of
      handler.go; they part only at three results, which handler.go's adapter rejects. */
  lemma ConversionsAgree(slots: seq<Value>)
    ensures |slots| <= 2 ==> ConvertLambdaResponse(slots) == ConvertResponse(slots)
    ensures |slots| == 3 ==> ConvertLambdaResponse(slots).0 == Nil && ConvertResponse(slots).0 == slots[0]
  {
  }

  /** What the handler's outcome becomes for the caller, before the deferred block. */
  function Completed(o: Outcome): Completion {
    match o
    case Panicked(p) => Panic(p)
    case Returned(slots) => Return(ConvertLambdaResponse(slots).0, ConvertLambdaResponse(slots).1)
  }

  /** Whether the deferred block counts an error for this outcome. */
  predicate Errored(o: Outcome) {
    o.Panicked? || ConvertLambdaResponse(o.slots).1.Some?
  }

  /** What `Wrapper` hands back to the Lambda runtime. */
  datatype WrapperResult = LambdaErrorHandler(e: Error) | LambdaHandlerWrapper

  /** `lambdaErrorHandler(e)` (wflambda.go:138-142): whatever context and payload it is
      given, the answer is `(nil, e)`. */
  function CallErrorHandler(e: Error, ctx: Context, payload: Bytes): (c: Completion)
    ensures c.Return? && c.val.Nil? && c.err == Some(e)
  {
    Return(Nil, Some(e))
  }

  /** How the deferred block ends an invocation whose own result is `result`: a panic in
      `reportMetrics` replaces it, and otherwise one report of `registry0` is made, the
      registry is emptied and `result` (a re-raised panic or the returned pair) stands. */
  ghost predicate Finished(ctx: Context, info: FunctionInfo, sendError: Option<Error>,
                           reports0: seq<Report>, registry0: map<string, Metric>,
                           reports: seq<Report>, registry: map<string, Metric>, c: Completion, result: Completion)
  {
    var fault := ReportFault(ctx, info);
    && (fault.Some? ==> c == Panic(ErrValue(fault.value)) && reports == reports0 && registry == registry0)
    && (fault.None? ==>
          && c == result && registry == map[]
          && reports == reports0 + [Report(PointTags(ctx.lambda.value.invokedFunctionArn, info).value, registry0, sendError)])
  }

  /** The counters `cs`, `inv` and `err` (nil ones aside) hold the counts they held before. */
  twostate predicate CountsKept(cs: MetricCounter?, inv: MetricCounter?, err: MetricCounter?)
    reads cs, inv, err
  {
    && (cs != null ==> cs.count == old(cs.count))
    && (inv != null ==> inv.count == old(inv.count))
    && (err != null ==> err.count == old(err.count))
  }

  /** The event counters and the duration gauge hold zero (wflambda.go never updates them). */
  predicate EventsZero(cse: MetricCounter?, inve: MetricCounter?, erre: MetricCounter?, dg: MetricGauge?)
    reads cse, inve, erre, dg
  {
    cse != null && inve != null && erre != null && dg != null
    && cse.count == 0 && inve.count == 0 && erre.count == 0 && dg.value == 0
  }

  class LambdaState {
    var server: string
    var authToken: string
    var reportStandardMetrics: bool
    var lambdaHandlerTakesContext: bool
    var handlerType: Option<HandlerSymbol>
    var coldStart: bool
    var csCounter: MetricCounter?
    var csEventCounter: MetricCounter?
    var invocationsCounter: MetricCounter?
    var invocationEventCounter: MetricCounter?
    var errCounter: MetricCounter?
    var errEventCounter: MetricCounter?
    var dGauge: MetricGauge?
    var registry: map<string, Metric>
    ghost var reports: seq<Report>
    /** How many times a cold start has been counted in this process. */
    ghost var coldStartsCounted: nat

    /** The cold start is counted at most once, and not before the flag is cleared. */
    ghost predicate Valid()
      reads this
    {
      coldStartsCounted <= 1 && (coldStart ==> coldStartsCounted == 0)
    }

    /** Process start: the zero values of wflambda.go:29-41. */
    constructor ()
      ensures Valid() && coldStart && coldStartsCounted == 0
      ensures server == "" && authToken == "" && !reportStandardMetrics && !lambdaHandlerTakesContext
      ensures handlerType.None? && registry == map[] && reports == []
      ensures csCounter == null && invocationsCounter == null && errCounter == null && dGauge == null
      ensures csEventCounter == null && invocationEventCounter == null && errEventCounter == null
    {
      server := "";
      authToken := "";
      reportStandardMetrics := false;
      lambdaHandlerTakesContext := false;
      handlerType := None;
      coldStart := true;
      csCounter := null;
      csEventCounter := null;
      invocationsCounter := null;
      invocationEventCounter := null;
      errCounter := null;
      errEventCounter := null;
      dGauge := null;
      registry := map[];
      reports := [];
      coldStartsCounted := 0;
    }

    /** `getAndValidateLambdaEnvironment` (reporter.go:103-119): the server global is
        assigned before its check, the token global only once the server is set. */
    method GetAndValidateLambdaEnvironment(env: map<string, string>) returns (r: Result<bool, string>)
      modifies this`server, this`authToken
      ensures r == CheckLambdaEnvironment(env)
      ensures server == Getenv(env, "WAVEFRONT_URL")
      ensures authToken == if server == "" then old(authToken) else Getenv(env, "WAVEFRONT_API_TOKEN")
    {
      server := Getenv(env, "WAVEFRONT_URL");
      if server == "" {
        return Failure(UrlNotSet);
      }
      authToken := Getenv(env, "WAVEFRONT_API_TOKEN");
      if authToken == "" {
        return Failure(TokenNotSet);
      }
      var flag := Getenv(env, "IS_REPORT_STANDARD_METRICS");
      var report := true;
      if flag == "False" || flag == "false" {
        report := false;
      }
      r := Success(report);
    }

    /** `Wrapper` (wflambda.go:50-65): an environment panic (`Failure`) stops it; otherwise
        the outcome of `validateLambdaHandler`, given as `validation`, decides. The
        takes-context global is assigned even when validation fails. */
    method Wrapper(env: map<string, string>, h: HandlerSymbol, validation: (bool, Option<Error>))
      returns (r: Result<WrapperResult, string>)
      modifies this`server, this`authToken, this`reportStandardMetrics, this`lambdaHandlerTakesContext, this`handlerType
      ensures server == Getenv(env, "WAVEFRONT_URL")
      ensures authToken == if server == "" then old(authToken) else Getenv(env, "WAVEFRONT_API_TOKEN")
      ensures CheckLambdaEnvironment(env).Failure? ==>
        && r == Failure(CheckLambdaEnvironment(env).error)
        && reportStandardMetrics == old(reportStandardMetrics)
        && lambdaHandlerTakesContext == old(lambdaHandlerTakesContext) && handlerType == old(handlerType)
      ensures CheckLambdaEnvironment(env).Success? ==>
        && reportStandardMetrics == CheckLambdaEnvironment(env).value
        && lambdaHandlerTakesContext == validation.0
        && (validation.1.Some? ==> r == Success(LambdaErrorHandler(validation.1.value)) && handlerType == old(handlerType))
        && (validation.1.None? ==> r == Success(LambdaHandlerWrapper) && handlerType == Some(h))
    {
      var env' := GetAndValidateLambdaEnvironment(env);
      if env'.Failure? {
        return Failure(env'.error);
      }
      reportStandardMetrics := env'.value;
      lambdaHandlerTakesContext := validation.0;
      if validation.1.Some? {
        return Success(LambdaErrorHandler(validation.1.value));
      }
      handlerType := Some(h);
      r := Success(LambdaHandlerWrapper);
    }

    /** `registerStandardLambdaMetrics` (reporter.go:26-51): fresh counters and gauge in the
        globals, registered under the standard names unless a name is still taken. The
        registrations are made together once the metrics exist, in the source's order. */
    method RegisterStandardLambdaMetrics()
      modifies this`csCounter, this`csEventCounter, this`invocationsCounter, this`invocationEventCounter
      modifies this`errCounter, this`errEventCounter, this`dGauge, this`registry
      ensures csCounter != null && csEventCounter != null && invocationsCounter != null
      ensures invocationEventCounter != null && errCounter != null && errEventCounter != null && dGauge != null
      ensures fresh(csCounter) && fresh(csEventCounter) && fresh(invocationsCounter) && fresh(invocationEventCounter)
      ensures fresh(errCounter) && fresh(errEventCounter) && fresh(dGauge)
      ensures csCounter.count == 0 && invocationsCounter.count == 0 && errCounter.count == 0
      ensures EventsZero(csEventCounter, invocationEventCounter, errEventCounter, dGauge)
      ensures csCounter != invocationsCounter && csCounter != errCounter && invocationsCounter != errCounter
      ensures csEventCounter != csCounter && csEventCounter != invocationsCounter && csEventCounter != errCounter
      ensures invocationEventCounter != csCounter && invocationEventCounter != invocationsCounter
      ensures invocationEventCounter != errCounter
      ensures errEventCounter != csCounter && errEventCounter != invocationsCounter && errEventCounter != errCounter
      ensures registry == StandardRegistry(old(registry), csCounter, csEventCounter, invocationsCounter,
                                           invocationEventCounter, errCounter, errEventCounter, dGauge)
    {
      csCounter := new MetricCounter();
      csEventCounter := new MetricCounter();
      invocationsCounter := new MetricCounter();
      invocationEventCounter := new MetricCounter();
      errCounter := new MetricCounter();
      errEventCounter := new MetricCounter();
      dGauge := new MetricGauge();
      registry := StandardRegistry(registry, csCounter, csEventCounter, invocationsCounter, invocationEventCounter,
                                   errCounter, errEventCounter, dGauge);
    }

    /** `reportMetrics` (reporter.go:54-89): a panic before reporting, or one report of the
        registry with the host tags; the reply is logged and never returned. */
    method ReportMetrics(ctx: Context, info: FunctionInfo, sendError: Option<Error>) returns (fault: Option<Error>)
      modifies this`reports
      ensures fault == ReportFault(ctx, info)
      ensures fault.None? ==> reports == old(reports) + [Report(PointTags(ctx.lambda.value.invokedFunctionArn, info).value,
                                                               registry, sendError)]
      ensures fault.Some? ==> reports == old(reports)
    {
      if ctx.lambda.None? {
        return Some(NilPointerDereference);
      }
      var hostTags := PointTags(ctx.lambda.value.invokedFunctionArn, info);
      if hostTags.Failure? {
        return Some(hostTags.error);
      }
      reports := reports + [Report(hostTags.value, registry, sendError)];
      fault := None;
    }

    /** `metrics.DefaultRegistry.UnregisterAll()`. */
    method UnregisterAll()
      modifies this`registry
      ensures registry == map[]
    {
      registry := map[];
    }

    /** The deferred block of wflambda.go:69-86 up to the re-raise: count an error when there
        is one (a nil counter panics when reporting), report, and unregister everything. A
        panic in the block ends it. */
    method Deferred(ctx: Context, info: FunctionInfo, counted: bool, sendError: Option<Error>) returns (fault: Option<Error>)
      modifies this`reports, this`registry, errCounter
      ensures var incFault := counted && reportStandardMetrics && errCounter == null;
        && (incFault ==> fault == Some(NilPointerDereference) && reports == old(reports) && registry == old(registry))
        && (!incFault ==>
              && (errCounter != null ==> errCounter.count == old(errCounter.count) + (if counted && reportStandardMetrics then 1 else 0))
              && fault == ReportFault(ctx, info)
              && (fault.None? ==> reports == old(reports) + [Report(PointTags(ctx.lambda.value.invokedFunctionArn, info).value,
                                                                   old(registry), sendError)]
                                  && registry == map[])
              && (fault.Some? ==> reports == old(reports) && registry == old(registry)))
    {
      if counted {
        fault := IncrementCounter(errCounter, 1, reportStandardMetrics);
        if fault.Some? {
          return;
        }
      }
      fault := ReportMetrics(ctx, info, sendError);
      if fault.Some? {
        return;
      }
      UnregisterAll();
    }

    /** The deferred block of wflambda.go:69-90 ending an invocation whose own result is
        `result`, counted as an error when `counted`: a nil error counter panics when
        reporting, and otherwise the block ends as `Finished` says. */
    method Finish(ctx: Context, info: FunctionInfo, result: Completion, counted: bool, sendError: Option<Error>)
      returns (c: Completion)
      modifies this`reports, this`registry, errCounter
      ensures counted && reportStandardMetrics && errCounter == null ==>
        c == Panic(ErrValue(NilPointerDereference)) && reports == old(reports) && registry == old(registry)
      ensures !(counted && reportStandardMetrics && errCounter == null) ==>
        && (errCounter != null ==> errCounter.count == old(errCounter.count) + (if counted && reportStandardMetrics then 1 else 0))
        && Finished(ctx, info, sendError, old(reports), old(registry), reports, registry, c, result)
    {
      var fault := Deferred(ctx, info, counted, sendError);
      if fault.Some? {
        return Panic(ErrValue(fault.value));
      }
      c := result;
    }

    /** wflambda.go:101-111: register fresh metrics when reporting, count the cold start
        (the flag is cleared whether or not reporting is on) and the invocation. */
    method CountInvocation()
      requires Valid()
      modifies this`csCounter, this`csEventCounter, this`invocationsCounter, this`invocationEventCounter
      modifies this`errCounter, this`errEventCounter, this`dGauge, this`registry
      modifies this`coldStart, this`coldStartsCounted, csCounter, invocationsCounter
      ensures Valid() && !coldStart
      ensures CountsKept(old(csCounter), old(invocationsCounter), old(errCounter))
      ensures coldStartsCounted == old(coldStartsCounted) + (if old(coldStart) && reportStandardMetrics then 1 else 0)
      ensures reportStandardMetrics ==>
        && csCounter != null && csEventCounter != null && invocationsCounter != null
        && invocationEventCounter != null && errCounter != null && errEventCounter != null && dGauge != null
        && fresh(csCounter) && fresh(invocationsCounter) && fresh(errCounter)
        && csCounter.count == (if old(coldStart) then 1 else 0)
        && invocationsCounter.count == 1 && errCounter.count == 0
        && EventsZero(csEventCounter, invocationEventCounter, errEventCounter, dGauge)
        && csCounter != errCounter && invocationsCounter != errCounter
        && errCounter !in {csEventCounter, invocationEventCounter, errEventCounter}
        && registry == StandardRegistry(old(registry), csCounter, csEventCounter, invocationsCounter,
                                        invocationEventCounter, errCounter, errEventCounter, dGauge)
      ensures !reportStandardMetrics ==>
        && csCounter == old(csCounter) && invocationsCounter == old(invocationsCounter) && errCounter == old(errCounter)
        && csEventCounter == old(csEventCounter) && invocationEventCounter == old(invocationEventCounter)
        && errEventCounter == old(errEventCounter) && dGauge == old(dGauge)
        && (csCounter != null ==> csCounter.count == old(csCounter.count))
        && (invocationsCounter != null ==> invocationsCounter.count == old(invocationsCounter.count))
        && registry == old(registry)
    {
      if reportStandardMetrics {
        RegisterStandardLambdaMetrics();
      }
      if coldStart {
        var ignored := IncrementCounter(csCounter, 1, reportStandardMetrics);
        if reportStandardMetrics {
          coldStartsCounted := coldStartsCounted + 1;
        }
        coldStart := false;
      }
      var ignored := IncrementCounter(invocationsCounter, 1, reportStandardMetrics);
    }

    /** The metric objects the globals hold. */
    function Metrics(): set<object?>
      reads this
    {
      {csCounter, csEventCounter, invocationsCounter, invocationEventCounter, errCounter, errEventCounter, dGauge}
    }

    /** How an invocation whose payload decoded ends (wflambda.go:101-134 and the deferred
        block): the cold-start flag is cleared, the counters held before the call (`cs0`,
        `inv0`, `err0`) keep their counts, and the reporting flag picks one of the two
        branches below. */
    twostate predicate Invoked(ctx: Context, info: FunctionInfo, args: seq<Arg>, user: seq<Arg> -> Outcome,
                               sendError: Option<Error>, c: Completion,
                               cs0: MetricCounter?, inv0: MetricCounter?, err0: MetricCounter?)
      reads this, Metrics(), cs0, inv0, err0
    {
      && !coldStart
      && CountsKept(cs0, inv0, err0)
      && (coldStartsCounted == old(coldStartsCounted) + (if old(coldStart) && reportStandardMetrics then 1 else 0))
      && (reportStandardMetrics ==> EventsZero(csEventCounter, invocationEventCounter, errEventCounter, dGauge))
      && (if reportStandardMetrics then InvokedReporting(ctx, info, args, user, sendError, c)
          else InvokedQuiet(ctx, info, args, user, sendError, c))
    }

    /** With reporting on: fresh counters hold one invocation, the cold start if there was
        one and the handler's error if there was one, and the block reports the registry the
        new metrics were registered into. */
    twostate predicate InvokedReporting(ctx: Context, info: FunctionInfo, args: seq<Arg>, user: seq<Arg> -> Outcome,
                                        sendError: Option<Error>, c: Completion)
      reads this, csCounter, invocationsCounter, errCounter
    {
      && csCounter != null && csEventCounter != null && invocationsCounter != null
      && invocationEventCounter != null && errCounter != null && errEventCounter != null && dGauge != null
      && fresh(csCounter) && fresh(invocationsCounter) && fresh(errCounter)
      && csCounter.count == (if old(coldStart) then 1 else 0)
      && invocationsCounter.count == 1
      && errCounter.count == (if Errored(user(args)) then 1 else 0)
      && Finished(ctx, info, sendError, old(reports),
                  StandardRegistry(old(registry), csCounter, csEventCounter, invocationsCounter,
                                   invocationEventCounter, errCounter, errEventCounter, dGauge),
                  reports, registry, c, Completed(user(args)))
    }

    /** With reporting off: the metric globals still name the same objects, and the block
        reports the registry as it was. */
    twostate predicate InvokedQuiet(ctx: Context, info: FunctionInfo, args: seq<Arg>, user: seq<Arg> -> Outcome,
                                    sendError: Option<Error>, c: Completion)
      reads this
    {
      && csCounter == old(csCounter) && invocationsCounter == old(invocationsCounter) && errCounter == old(errCounter)
      && csEventCounter == old(csEventCounter) && invocationEventCounter == old(invocationEventCounter)
      && errEventCounter == old(errEventCounter) && dGauge == old(dGauge)
      && Finished(ctx, info, sendError, old(reports), old(registry), reports, registry, c, Completed(user(args)))
    }

    /** wflambda.go:101-134 with the deferred block: count the invocation, call the handler
        with `args`, and finish. */
    method CountAndCall(ctx: Context, info: FunctionInfo, args: seq<Arg>, user: seq<Arg> -> Outcome,
                        sendError: Option<Error>) returns (c: Completion)
      requires Valid()
      modifies this`csCounter, this`csEventCounter, this`invocationsCounter, this`invocationEventCounter
      modifies this`errCounter, this`errEventCounter, this`dGauge, this`registry, this`reports
      modifies this`coldStart, this`coldStartsCounted, csCounter, invocationsCounter, errCounter
      ensures Valid()
      ensures Invoked(ctx, info, args, user, sendError, c, old(csCounter), old(invocationsCounter), old(errCounter))
    {
      CountInvocation();
      var o := user(args);
      c := Finish(ctx, info, Completed(o), Errored(o), sendError);
    }

    /** How an invocation whose payload does not decode ends (wflambda.go:95-97 and the
        deferred block): no counter but the error counter changes, the cold-start flag stays,
        and the result `(nil, e)` is counted as an error; with reporting on and no error
        counter registered yet, that count panics. */
    twostate predicate DecodeFailed(ctx: Context, info: FunctionInfo, e: Error, sendError: Option<Error>, c: Completion)
      reads this, csCounter, invocationsCounter, errCounter
    {
      && coldStart == old(coldStart) && coldStartsCounted == old(coldStartsCounted)
      && csCounter == old(csCounter) && invocationsCounter == old(invocationsCounter) && errCounter == old(errCounter)
      && (csCounter != null && csCounter != errCounter ==> csCounter.count == old(csCounter.count))
      && (invocationsCounter != null && invocationsCounter != errCounter ==>
            invocationsCounter.count == old(invocationsCounter.count))
      && (reportStandardMetrics && errCounter == null ==>
            c == Panic(ErrValue(NilPointerDereference)) && reports == old(reports) && registry == old(registry))
      && (!(reportStandardMetrics && errCounter == null) ==>
            && (errCounter != null ==> errCounter.count == old(errCounter.count) + (if reportStandardMetrics then 1 else 0))
            && Finished(ctx, info, sendError, old(reports), old(registry), reports, registry, c, Return(Nil, Some(e))))
    }

    /** wflambda.go:95-97 with the deferred block. */
    method FailDecode(ctx: Context, info: FunctionInfo, e: Error, sendError: Option<Error>) returns (c: Completion)
      modifies this`reports, this`registry, errCounter
      ensures DecodeFailed(ctx, info, e, sendError, c)
    {
      c := Finish(ctx, info, Return(Nil, Some(e)), true, sendError);
    }

    /** `lambdaHandlerWrapper` (wflambda.go:68-135): the arguments are assembled as in
        handler.go, and a payload that does not decode returns `(nil, e)` before any counter
        or the handler is touched. */
    method LambdaHandlerWrapperCall(ctx: Context, payload: Bytes, info: FunctionInfo,
                                    unmarshal: Bytes -> Result<Value, Error>, user: seq<Arg> -> Outcome,
                                    sendError: Option<Error>) returns (c: Completion)
      requires Valid() && handlerType.Some? && handlerType.value.Function?
      modifies this`csCounter, this`csEventCounter, this`invocationsCounter, this`invocationEventCounter
      modifies this`errCounter, this`errEventCounter, this`dGauge, this`registry, this`reports
      modifies this`coldStart, this`coldStartsCounted, csCounter, invocationsCounter, errCounter
      ensures Valid()
      ensures var takes := TakesEvent(handlerType.value.sig.numIn, lambdaHandlerTakesContext);
        if takes && unmarshal(payload).Failure? then DecodeFailed(ctx, info, unmarshal(payload).error, sendError, c)
        else Invoked(ctx, info, Arguments(lambdaHandlerTakesContext, ctx, if takes then Some(unmarshal(payload).value) else None),
                     user, sendError, c, old(csCounter), old(invocationsCounter), old(errCounter))
    {
      var args: seq<Arg> := if lambdaHandlerTakesContext then [ContextArg(ctx)] else [];
      ghost var event: Option<Value> := None;
      if TakesEvent(handlerType.value.sig.numIn, lambdaHandlerTakesContext) {
        var decoded := unmarshal(payload);
        if decoded.Failure? {
          c := FailDecode(ctx, info, decoded.error, sendError);
          return;
        }
        args := args + [EventArg(decoded.value)];
        event := Some(decoded.value);
      }
      assert args == Arguments(lambdaHandlerTakesContext, ctx, event);
      c := CountAndCall(ctx, info, args, user, sendError);
    }
  }

  /** The registrations of `registerStandardLambdaMetrics` (reporter.go:26-51), name and
      metric, in their order. */
  function StandardEntries(cs: MetricCounter, cse: MetricCounter, inv: MetricCounter, inve: MetricCounter,
                           err: MetricCounter, erre: MetricCounter, dg: MetricGauge): seq<(string, Metric)>
  {
    [(ColdStartsName, CounterMetric(cs)), (ColdStartEventName, CounterMetric(cse)),
     (InvocationsName, CounterMetric(inv)), (InvocationEventName, CounterMetric(inve)),
     (ErrorsName, CounterMetric(err)), (ErrorEventName, CounterMetric(erre)),
     (DurationName, GaugeMetric(dg))]
  }

  /** `Register` called on each entry in turn. */
  function RegisterAll(registry: map<string, Metric>, entries: seq<(string, Metric)>): map<string, Metric>
    decreases |entries|
  {
    if |entries| == 0 then registry
    else RegisterAll(Registered(registry, entries[0].0, entries[0].1), entries[1..])
  }

  /** The registry after `registerStandardLambdaMetrics` with the given metric objects. */
  function StandardRegistry(registry: map<string, Metric>, cs: MetricCounter, cse: MetricCounter, inv: MetricCounter,
                            inve: MetricCounter, err: MetricCounter, erre: MetricCounter, dg: MetricGauge): map<string, Metric>
  {
    RegisterAll(registry, StandardEntries(cs, cse, inv, inve, err, erre, dg))
  }

  function Names(entries: seq<(string, Metric)>): set<string> {
    set i | 0 <= i < |entries| :: entries[i].0
  }

  /** `r` holds every name of `base` with the same metric. */
  ghost predicate Extends(r: map<string, Metric>, base: map<string, Metric>) {
    base.Keys <= r.Keys && forall k :: k in base ==> r[k] == base[k]
  }

  /** Registering a list keeps every metric already registered and adds the list's names
      and nothing else. */
  lemma {:induction false} RegisterAllKeeps(registry: map<string, Metric>, entries: seq<(string, Metric)>)
    ensures RegisterAll(registry, entries).Keys == registry.Keys + Names(entries)
    ensures Extends(RegisterAll(registry, entries), registry)
    decreases |entries|
  {
    if |entries| > 0 {
      var r1 := Registered(registry, entries[0].0, entries[0].1);
      RegisteredKeeps(registry, entries[0].0, entries[0].1);
      RegisterAllKeeps(r1, entries[1..]);
      assert Names(entries) == {entries[0].0} + Names(entries[1..]) by {
        forall n | n in Names(entries) ensures n in {entries[0].0} + Names(entries[1..]) {
          var i :| 0 <= i < |entries| && entries[i].0 == n;
          if i > 0 { assert entries[1..][i - 1].0 == n; }
        }
        forall n | n in Names(entries[1..]) ensures n in Names(entries) {
          var i :| 0 <= i < |entries[1..]| && entries[1..][i].0 == n;
          assert entries[i + 1].0 == n;
        }
      }
    } else {
      assert Names(entries) == {};
    }
  }

  /** A name that is free before the registration gets the metric of the first entry
      carrying it. */
  lemma {:induction false} RegisterAllFirst(registry: map<string, Metric>, entries: seq<(string, Metric)>, i: nat)
    requires i < |entries| && entries[i].0 !in registry
    requires forall j :: 0 <= j < i ==> entries[j].0 != entries[i].0
    ensures entries[i].0 in RegisterAll(registry, entries)
    ensures RegisterAll(registry, entries)[entries[i].0] == entries[i].1
    decreases |entries|
  {
    var r1 := Registered(registry, entries[0].0, entries[0].1);
    RegisteredKeeps(registry, entries[0].0, entries[0].1);
    if i == 0 {
      RegisterAllKeeps(r1, entries[1..]);
    } else {
      assert entries[1..][i - 1] == entries[i];
      RegisterAllFirst(r1, entries[1..], i - 1);
    }
  }

  /** The seven registration names are pairwise distinct, so no standard metric shadows
      another. */
  lemma StandardNamesDistinct(cs: MetricCounter, cse: MetricCounter, inv: MetricCounter, inve: MetricCounter,
                              err: MetricCounter, erre: MetricCounter, dg: MetricGauge)
    ensures var es := StandardEntries(cs, cse, inv, inve, err, erre, dg);
      forall i, j :: 0 <= i < j < |es| ==> es[i].0 != es[j].0
  {
    var p := |MetricPrefix|;
    // Delta counter names start with U+2206, the others with the prefix's first letter.
    assert ColdStartsName[0] == InvocationsName[0] == ErrorsName[0] == '\U{2206}';
    assert ColdStartEventName[0] == InvocationEventName[0] == ErrorEventName[0] == DurationName[0] == 'a';
    // Past the prefix, each name of a kind starts with a different letter.
    assert ColdStartsName[p + 1] == 'c' && InvocationsName[p + 1] == 'i' && ErrorsName[p + 1] == 'e';
    assert ColdStartEventName[p] == 'c' && InvocationEventName[p] == 'i' && ErrorEventName[p] == 'e';
    assert DurationName[p] == 'd';
  }

  /** The registration keeps every metric already registered and adds the seven names and
      nothing else. */
  lemma StandardRegistryKeeps(registry: map<string, Metric>, cs: MetricCounter, cse: MetricCounter,
                              inv: MetricCounter, inve: MetricCounter, err: MetricCounter,
                              erre: MetricCounter, dg: MetricGauge)
    ensures var r := StandardRegistry(registry, cs, cse, inv, inve, err, erre, dg);
      && r.Keys == registry.Keys + {ColdStartsName, ColdStartEventName, InvocationsName, InvocationEventName,
                                    ErrorsName, ErrorEventName, DurationName}
      && Extends(r, registry)
  {
    var es := StandardEntries(cs, cse, inv, inve, err, erre, dg);
    RegisterAllKeeps(registry, es);
    assert Names(es) == {ColdStartsName, ColdStartEventName, InvocationsName, InvocationEventName,
                         ErrorsName, ErrorEventName, DurationName} by {
      assert es[0].0 == ColdStartsName && es[1].0 == ColdStartEventName && es[2].0 == InvocationsName;
      assert es[3].0 == InvocationEventName && es[4].0 == ErrorsName && es[5].0 == ErrorEventName;
      assert es[6].0 == DurationName;
    }
  }

  /** A registry still holding the seven names (one a panicking report did not empty) keeps
      its old metrics: the new counters are not registered, so what they count is not what
      the next report sends. */
  lemma StaleRegistryIsKept(registry: map<string, Metric>, cs: MetricCounter, cse: MetricCounter, inv: MetricCounter,
                            inve: MetricCounter, err: MetricCounter, erre: MetricCounter, dg: MetricGauge)
    requires ColdStartsName in registry && ColdStartEventName in registry && InvocationsName in registry
    requires InvocationEventName in registry && ErrorsName in registry && ErrorEventName in registry
    requires DurationName in registry
    ensures StandardRegistry(registry, cs, cse, inv, inve, err, erre, dg) == registry
  {
    StandardRegistryKeeps(registry, cs, cse, inv, inve, err, erre, dg);
  }

  /** Into a registry holding none of the seven names (the first invocation, or one after
      `UnregisterAll`), the registration puts each new metric under its name. */
  lemma StandardRegistryFresh(registry: map<string, Metric>, cs: MetricCounter, cse: MetricCounter, inv: MetricCounter,
                              inve: MetricCounter, err: MetricCounter, erre: MetricCounter, dg: MetricGauge)
    requires ColdStartsName !in registry && ColdStartEventName !in registry && InvocationsName !in registry
    requires InvocationEventName !in registry && ErrorsName !in registry && ErrorEventName !in registry
    requires DurationName !in registry
    ensures var r := StandardRegistry(registry, cs, cse, inv, inve, err, erre, dg);
      && ColdStartsName in r && r[ColdStartsName] == CounterMetric(cs)
      && InvocationsName in r && r[InvocationsName] == CounterMetric(inv)
      && ErrorsName in r && r[ErrorsName] == CounterMetric(err)
      && ColdStartEventName in r && r[ColdStartEventName] == CounterMetric(cse)
      && InvocationEventName in r && r[InvocationEventName] == CounterMetric(inve)
      && ErrorEventName in r && r[ErrorEventName] == CounterMetric(erre)
      && DurationName in r && r[DurationName] == GaugeMetric(dg)
  {
    var es := StandardEntries(cs, cse, inv, inve, err, erre, dg);
    StandardNamesDistinct(cs, cse, inv, inve, err, erre, dg);
    RegisterAllFirst(registry, es, 0);
    RegisterAllFirst(registry, es, 1);
    RegisterAllFirst(registry, es, 2);
    RegisterAllFirst(registry, es, 3);
    RegisterAllFirst(registry, es, 4);
    RegisterAllFirst(registry, es, 5);
    RegisterAllFirst(registry, es, 6);
  }

  /** The deferred block counts an error exactly when the caller gets a panic or a non-nil
      error. */
  lemma ErroredIsErrorCompletion(o: Outcome)
    ensures Errored(o) <==> Completed(o).Panic? || Completed(o).err.Some?
  {
  }

  /** The reply `WavefrontOnce` gives is only recorded in the report: it never changes what
      the caller receives or the registry left behind. */
  lemma SendErrorNotReturned(ctx: Context, info: FunctionInfo, e1: Option<Error>, e2: Option<Error>,
                             reports0: seq<Report>, registry0: map<string, Metric>, result: Completion,
                             reports1: seq<Report>, registry1: map<string, Metric>, c1: Completion,
                             reports2: seq<Report>, registry2: map<string, Metric>, c2: Completion)
    requires Finished(ctx, info, e1, reports0, registry0, reports1, registry1, c1, result)
    requires Finished(ctx, info, e2, reports0, registry0, reports2, registry2, c2, result)
    ensures c1 == c2 && registry1 == registry2 && |reports1| == |reports2|
  {
  }
}
