/** handler.go:19-134: the per-invocation wrapper of the handler.go build variant. It writes
    the ARN tags into the agent's shared tag map, counts the invocation, calls the adapted
    handler, records the standard series, reports them through the sender and, in its
    deferred block, counts errors, flushes, closes and re-raises a panic.

    Timing, the memory probe and the package-level function name and version are inputs. */
module HandlerWrapping {
  import opened Wrappers
  import opened GoValues
  import opened Arn
  import opened Handler
  import opened Agent
  import opened Counters

  /** The figures `getMemoryStats` returns. */
  datatype MemoryStats = MemoryStats(total: real, used: real, usedPercentage: real)

  const ErrorsMetric: string := "aws.lambda.wf.errors"
  const ColdStartsMetric: string := "aws.lambda.wf.coldstarts"
  const InvocationsMetric: string := "aws.lambda.wf.invocations"
  const DurationMetric: string := "aws.lambda.wf.duration"
  const MemTotalMetric: string := "aws.lambda.wf.mem.total"
  const MemUsedMetric: string := "aws.lambda.wf.mem.used"
  const MemPercentageMetric: string := "aws.lambda.wf.mem.percentage"

  /** The error report of the deferred block, present when it counts an error. */
  function ErrorReport(counted: bool, errors: int, source: string, tags: map<string, string>): seq<SenderCall> {
    if counted then [SendDeltaCounter(ErrorsMetric, errors as real, source, tags)] else []
  }

  /** Everything an invocation can change, as a value: the process globals, the agent's two
      series maps, the shared tag map and the sender's log and pending replies. */
  datatype State = State(coldStart: bool, coldStarts: int, invocations: int, errors: int,
                         metrics: map<string, real>, counters: map<string, real>,
                         tags: map<string, string>, log: seq<SenderCall>, replies: seq<Option<Error>>)

  /** The gauges an invocation records. */
  const RecordedMetrics: set<string> := {DurationMetric, MemTotalMetric, MemUsedMetric, MemPercentageMetric}
  /** The counters an invocation records. */
  const RecordedCounters: set<string> := {ColdStartsMetric, InvocationsMetric}

  /** The deferred block up to the re-raise (handler.go:69-84): count and report an error
      when there is one, then flush and close. */
  function Defer(s: State, counted: bool, source: string): State {
    var errors := if counted then s.errors + 1 else s.errors;
    s.(errors := errors,
       log := s.log + ErrorReport(counted, errors, source, s.tags) + [Flush, Close],
       replies := Drop(s.replies, if counted then 2 else 1))
  }

  /** handler.go:96-105: a returned error is counted, and the first invocation of the process
      counts the cold start and clears the flag. */
  function Counted(s: State, err: Option<Error>): State {
    s.(errors := if err.Some? then s.errors + 1 else s.errors,
       coldStart := false,
       coldStarts := if s.coldStart then s.coldStarts + 1 else s.coldStarts)
  }

  /** handler.go:110-117: the counters and gauges of this invocation go into the maps. */
  function Recorded(s: State, durationMs: int, mem: MemoryStats): State {
    s.(counters := s.counters[ColdStartsMetric := s.coldStarts as real][InvocationsMetric := s.invocations as real],
       metrics := s.metrics[DurationMetric := durationMs as real][MemTotalMetric := mem.total]
                           [MemUsedMetric := mem.used][MemPercentageMetric := mem.usedPercentage])
  }

  /** handler.go:119-131: every gauge, then every counter, is sent in the iteration orders
      `mo` and `co`; each reply overwrites the error variable `err`. */
  function Sent(s: State, mo: seq<string>, co: seq<string>, reportTime: int, source: string,
                err: Option<Error>): (State, Option<Error>)
    requires forall k :: k in mo ==> k in s.metrics
    requires forall k :: k in co ==> k in s.counters
  {
    (s.(log := s.log + SeriesCalls(false, s.metrics, mo, reportTime, source, s.tags)
                     + SeriesCalls(true, s.counters, co, reportTime, source, s.tags),
        replies := Drop(s.replies, |mo| + |co|)),
     LastReply(err, s.replies, |mo| + |co|))
  }

  /** What the iteration orders range over after an invocation that returned. */
  predicate OrdersWithin(s: State, mo: seq<string>, co: seq<string>) {
    (forall k :: k in mo ==> k in s.metrics || k in RecordedMetrics)
    && (forall k :: k in co ==> k in s.counters || k in RecordedCounters)
  }

  /** handler.go:90-133 with the deferred block, once the tags are written, given what the
      adapted handler did (`h`): a panic is counted, reported and re-raised unchanged; a
      return is counted, recorded and sent, and its value comes back with the error
      variable as the sends left it. */
  function ReportSpec(s: State, h: Completion, source: string, durationMs: int, reportTime: int,
                      mem: MemoryStats, mo: seq<string>, co: seq<string>): (Completion, State)
    requires OrdersWithin(s, mo, co)
  {
    var s1 := s.(invocations := s.invocations + 1);
    match h
    case Panic(_) => (h, Defer(s1, true, source))
    case Return(val, err) =>
      var s2 := Recorded(Counted(s1, err), durationMs, mem);
      var sent := Sent(s2, mo, co, reportTime, source, err);
      (Return(val, sent.1), Defer(sent.0, sent.1.Some?, source))
  }

  /** `Invoke` (handler.go:43-134) on the state `s`, for the adapted handler `a`. */
  function InvokeSpec(s: State, a: Adapted, ctx: Context, payload: Value, info: FunctionInfo, codec: Codec,
                      user: seq<Arg> -> Outcome, durationMs: int, reportTime: int, mem: MemoryStats,
                      mo: seq<string>, co: seq<string>): (Completion, State)
    requires OrdersWithin(s, mo, co)
  {
    if ctx.lambda.None? then (Panic(ErrValue(NilPointerDereference)), s)
    else
      var arn := ctx.lambda.value.invokedFunctionArn;
      var pt := PointTags(arn, info);
      if pt.Failure? then (Panic(ErrValue(pt.error)), s.(tags := s.tags + TagsBeforeFault(arn, info)))
      else ReportSpec(s.(tags := s.tags + pt.value), Call(a, ctx, payload, codec, user), info.name,
                      durationMs, reportTime, mem, mo, co)
  }

  // ---------------------------------------------------------------------------
  // Properties of an invocation.

  /** The cold-start count is 1 exactly once the flag is cleared, and every invocation keeps
      that so: the cold start is counted at most once per process, by the first invocation
      that returns. */
  lemma ColdStartCountedOnce(s: State, h: Completion, source: string, durationMs: int, reportTime: int,
                             mem: MemoryStats, mo: seq<string>, co: seq<string>)
    requires OrdersWithin(s, mo, co)
    requires s.coldStarts == (if s.coldStart then 0 else 1)
    ensures var r := ReportSpec(s, h, source, durationMs, reportTime, mem, mo, co).1;
      && r.coldStarts == (if r.coldStart then 0 else 1)
      && (r.coldStart ==> s.coldStart)
      && (h.Return? ==> !r.coldStart)
      && (!s.coldStart ==> r.coldStarts == s.coldStarts)
  {
  }

  /** The invocation counter goes up by one whatever the handler does. */
  lemma InvocationCounted(s: State, h: Completion, source: string, durationMs: int, reportTime: int,
                          mem: MemoryStats, mo: seq<string>, co: seq<string>)
    requires OrdersWithin(s, mo, co)
    ensures ReportSpec(s, h, source, durationMs, reportTime, mem, mo, co).1.invocations == s.invocations + 1
  {
  }

  /** A panic is counted once and reported, the sender is flushed and closed, and the same
      panic value comes back; the cold-start flag and the series maps are not touched. */
  lemma PanicReRaised(s: State, h: Completion, source: string, durationMs: int, reportTime: int,
                      mem: MemoryStats, mo: seq<string>, co: seq<string>)
    requires OrdersWithin(s, mo, co) && h.Panic?
    ensures ReportSpec(s, h, source, durationMs, reportTime, mem, mo, co)
      == (h, s.(invocations := s.invocations + 1, errors := s.errors + 1,
                log := s.log + [SendDeltaCounter(ErrorsMetric, (s.errors + 1) as real, source, s.tags), Flush, Close],
                replies := Drop(s.replies, 2)))
  {
    var report := SendDeltaCounter(ErrorsMetric, (s.errors + 1) as real, source, s.tags);
    assert s.log + ErrorReport(true, s.errors + 1, source, s.tags) + [Flush, Close] == s.log + [report, Flush, Close];
  }

  /** A return counts an error for the handler's error and again for the error the sends
      leave behind, so a returned error can be counted twice. */
  lemma ErrorsCountedOnReturn(s: State, h: Completion, source: string, durationMs: int, reportTime: int,
                              mem: MemoryStats, mo: seq<string>, co: seq<string>)
    requires OrdersWithin(s, mo, co) && h.Return?
    ensures var r := ReportSpec(s, h, source, durationMs, reportTime, mem, mo, co);
      && r.0.Return? && r.0.val == h.val
      && r.1.errors == s.errors + (if h.err.Some? then 1 else 0) + (if r.0.err.Some? then 1 else 0)
  {
  }

  /** The error returned is the sender's answer to the last counter send, not the handler's. */
  lemma {:induction false} ReturnedErrorIsLastReply(s: State, h: Completion, source: string, durationMs: int,
                                                    reportTime: int, mem: MemoryStats, mo: seq<string>, co: seq<string>)
    requires OrdersWithin(s, mo, co) && h.Return?
    requires var r := ReportSpec(s, h, source, durationMs, reportTime, mem, mo, co).1;
      IsOrdering(mo, r.metrics.Keys) && IsOrdering(co, r.counters.Keys)
    ensures var r := ReportSpec(s, h, source, durationMs, reportTime, mem, mo, co);
      r.0 == Return(h.val, Reply(s.replies, |r.1.metrics| + |r.1.counters| - 1))
  {
    var r := ReportSpec(s, h, source, durationMs, reportTime, mem, mo, co).1;
    OrderingCardinality(mo, r.metrics.Keys);
    OrderingCardinality(co, r.counters.Keys);
    assert InvocationsMetric in r.counters;
  }

  /** Two handlers that return the same value and different errors give the caller the same
      pair: the handler's error does not reach the caller. */
  lemma HandlerErrorIsOverwritten(s: State, val: Value, e1: Option<Error>, e2: Option<Error>, source: string,
                                  durationMs: int, reportTime: int, mem: MemoryStats, mo: seq<string>, co: seq<string>)
    requires OrdersWithin(s, mo, co) && |co| > 0
    ensures ReportSpec(s, Return(val, e1), source, durationMs, reportTime, mem, mo, co).0
         == ReportSpec(s, Return(val, e2), source, durationMs, reportTime, mem, mo, co).0
  {
  }

  /** The sender log only grows, and every invocation that reaches the handler ends it with
      `Flush` and `Close`. */
  lemma ReportEndsWithFlushClose(s: State, h: Completion, source: string, durationMs: int, reportTime: int,
                                 mem: MemoryStats, mo: seq<string>, co: seq<string>)
    requires OrdersWithin(s, mo, co)
    ensures var log := ReportSpec(s, h, source, durationMs, reportTime, mem, mo, co).1.log;
      |log| >= |s.log| + 2 && log[..|s.log|] == s.log && log[|log| - 2..] == [Flush, Close]
  {
    var log := ReportSpec(s, h, source, durationMs, reportTime, mem, mo, co).1.log;
    assert log[..|s.log|] == s.log;
  }

  /** Without a Lambda context, or with an ARN too short for its tags, the invocation faults
      before the deferred block: only the tags written so far change, and nothing is
      counted or sent. */
  lemma FaultChangesOnlyTags(s: State, a: Adapted, ctx: Context, payload: Value, info: FunctionInfo, codec: Codec,
                             user: seq<Arg> -> Outcome, durationMs: int, reportTime: int, mem: MemoryStats,
                             mo: seq<string>, co: seq<string>)
    requires OrdersWithin(s, mo, co)
    requires ctx.lambda.None? || PointTags(ctx.lambda.value.invokedFunctionArn, info).Failure?
    ensures var r := InvokeSpec(s, a, ctx, payload, info, codec, user, durationMs, reportTime, mem, mo, co);
      && r.0.Panic?
      && (ctx.lambda.None? ==> r == (Panic(ErrValue(NilPointerDereference)), s))
      && (ctx.lambda.Some? ==>
            var arn := ctx.lambda.value.invokedFunctionArn;
            r == (Panic(ErrValue(PointTags(arn, info).error)), s.(tags := s.tags + TagsBeforeFault(arn, info))))
  {
  }

  /** Reporting leaves the tag map as it is. */
  lemma ReportKeepsTags(s: State, h: Completion, source: string, durationMs: int, reportTime: int,
                        mem: MemoryStats, mo: seq<string>, co: seq<string>)
    requires OrdersWithin(s, mo, co)
    ensures ReportSpec(s, h, source, durationMs, reportTime, mem, mo, co).1.tags == s.tags
  {
  }

  /** A union with a map of ARN keys leaves every other key as it was. */
  lemma UnionOfArnKeys(t: map<string, string>, x: map<string, string>)
    requires x.Keys <= ArnTagKeys
    ensures forall k :: k !in ArnTagKeys ==> (k in t + x <==> k in t) && (k in t ==> (t + x)[k] == t[k])
  {
  }

  /** The invocation writes no tag key other than the ARN keys; every other tag keeps its
      presence and its value. */
  lemma TagsOnlyArnKeys(s: State, a: Adapted, ctx: Context, payload: Value, info: FunctionInfo, codec: Codec,
                        user: seq<Arg> -> Outcome, durationMs: int, reportTime: int, mem: MemoryStats,
                        mo: seq<string>, co: seq<string>)
    requires OrdersWithin(s, mo, co)
    ensures var t := InvokeSpec(s, a, ctx, payload, info, codec, user, durationMs, reportTime, mem, mo, co).1.tags;
      forall k :: k !in ArnTagKeys ==> (k in t <==> k in s.tags) && (k in s.tags ==> t[k] == s.tags[k])
  {
    if ctx.lambda.Some? {
      var arn := ctx.lambda.value.invokedFunctionArn;
      var pt := PointTags(arn, info);
      if pt.Success? {
        PointTagKeys(arn, info);
        var s1 := s.(tags := s.tags + pt.value);
        ReportKeepsTags(s1, Call(a, ctx, payload, codec, user), info.name, durationMs, reportTime, mem, mo, co);
        UnionOfArnKeys(s.tags, pt.value);
      } else {
        PointTagKeys(arn, info);
        UnionOfArnKeys(s.tags, TagsBeforeFault(arn, info));
      }
    }
  }

  /** handler.go:53-58: the four tags taken from the context, then `Region` and `accountId`;
      an ARN of fewer than four or five fields faults at the index it lacks. */
  method WriteLeadingTags(tags0: map<string, string>, arn: string, info: FunctionInfo)
    returns (tags: map<string, string>, fault: Option<Error>)
    ensures tags == tags0 + TagsBeforeFault(arn, info)
    ensures var n := |Split(arn, ':')|;
      fault == if n <= 4 then Some(IndexOutOfRange(if n <= 3 then 3 else 4, n)) else None
  {
    tags := tags0;
    var segs := Split(arn, ':');
    tags := tags["LambdaArn" := arn];
    tags := tags["source" := info.name];
    tags := tags["FunctionName" := info.name];
    tags := tags["ExecutedVersion" := info.version];
    if |segs| <= 3 {
      return tags, Some(IndexOutOfRange(3, |segs|));
    }
    tags := tags["Region" := segs[3]];
    if |segs| <= 4 {
      return tags, Some(IndexOutOfRange(4, |segs|));
    }
    tags := tags["accountId" := segs[4]];
    fault := None;
  }

  /** handler.go:60-67: the resource tag, for an ARN of at least six fields; a function or
      event-source-mapping ARN without a seventh field faults before writing. */
  method WriteResourceTag(tags0: map<string, string>, segs: seq<string>)
    returns (tags: map<string, string>, fault: Option<Error>)
    requires |segs| >= 6
    ensures fault.None? <==> HasTagFields(segs)
    ensures fault.None? ==> tags == tags0 + ResourceTags(segs)
    ensures fault.Some? ==> tags == tags0 && fault == Some(IndexOutOfRange(6, |segs|))
  {
    tags := tags0;
    if segs[5] == "function" {
      if |segs| <= 6 {
        return tags, Some(IndexOutOfRange(6, |segs|));
      }
      tags := tags["Resource" := segs[6]];
      if |segs| == 8 {
        tags := tags["Resource" := tags["Resource"] + ":" + segs[7]];
      }
    } else if segs[5] == "event-source-mappings" {
      if |segs| <= 6 {
        return tags, Some(IndexOutOfRange(6, |segs|));
      }
      tags := tags["EventSourceMappings" := segs[6]];
    }
    fault := None;
  }

  /** handler.go:49-67, one write at a time: the ARN tags go into `tags0`, and when the ARN
      is too short the index fault stops the writes part-way (the map keeps what was
      written). */
  method WriteArnTags(tags0: map<string, string>, arn: string, info: FunctionInfo)
    returns (tags: map<string, string>, fault: Option<Error>)
    ensures var pt := PointTags(arn, info);
      && (fault.None? <==> pt.Success?)
      && (pt.Success? ==> tags == tags0 + pt.value)
      && (pt.Failure? ==> fault == Some(pt.error) && tags == tags0 + TagsBeforeFault(arn, info))
  {
    var segs := Split(arn, ':');
    tags, fault := WriteLeadingTags(tags0, arn, info);
    if fault.Some? {
      return;
    }
    if |segs| <= 5 {
      return tags, Some(IndexOutOfRange(5, |segs|));
    }
    tags, fault := WriteResourceTag(tags, segs);
    if fault.None? {
      PointTagsSplit(arn, info);
      UnionAssociates(tags0, TagsBeforeFault(arn, info), ResourceTags(segs));
    }
  }

  lemma UnionAssociates(a: map<string, string>, b: map<string, string>, c: map<string, string>)
    ensures a + b + c == a + (b + c)
  {
  }

  /** Two consecutive `SendSeries` runs, gauges then counters, amount to `Sent`. */
  lemma SentOfSeries(s: State, mo: seq<string>, co: seq<string>, reportTime: int, source: string, err: Option<Error>)
    requires forall k :: k in mo ==> k in s.metrics
    requires forall k :: k in co ==> k in s.counters
    ensures var log1 := s.log + SeriesCalls(false, s.metrics, mo, reportTime, source, s.tags);
      Sent(s, mo, co, reportTime, source, err)
      == (s.(log := log1 + SeriesCalls(true, s.counters, co, reportTime, source, s.tags),
             replies := Drop(Drop(s.replies, |mo|), |co|)),
          LastReply(LastReply(err, s.replies, |mo|), Drop(s.replies, |mo|), |co|))
  {
    var r := s.replies;
    DropAdd(r, |mo|, |co|);
    if |co| > 0 {
      DropAdd(r, |mo|, |co| - 1);
      assert LastReply(LastReply(err, r, |mo|), Drop(r, |mo|), |co|) == Reply(r, |mo| + |co| - 1);
    }
    assert LastReply(LastReply(err, r, |mo|), Drop(r, |mo|), |co|) == LastReply(err, r, |mo| + |co|);
  }

  /** The state an invocation acts on. */
  ghost function StateOf(agent: Agent, globals: Globals): State
    reads agent, agent.config, agent.sender, globals
    reads globals.csCounter, globals.invocationsCounter, globals.errCounter
  {
    State(globals.coldStart, globals.csCounter.val, globals.invocationsCounter.val, globals.errCounter.val,
          agent.metrics, agent.counters, agent.config.pointTags.GetOr(map[]), agent.sender.log, agent.sender.replies)
  }

  class HandlerWrapper {
    const agent: Agent
    const globals: Globals
    const originalHandler: HandlerSymbol
    const wrappedHandler: Adapted
    var lambdaContext: Option<LambdaContext>

    ghost predicate Valid()
      reads this, agent, agent.config, globals, globals.csCounter
    {
      agent.Valid() && globals.Valid()
    }

    ghost function Snapshot(): State
      reads this, agent, agent.config, agent.sender, globals
      reads globals.csCounter, globals.invocationsCounter, globals.errCounter
    {
      StateOf(agent, globals)
    }

    /** `NewHandlerWrapper`: adapts the handler afresh. */
    constructor (handler: HandlerSymbol, wa: Agent, globals: Globals)
      ensures agent == wa && this.globals == globals && originalHandler == handler
      ensures wrappedHandler == NewHandler(handler) && lambdaContext.None?
    {
      agent := wa;
      this.globals := globals;
      originalHandler := handler;
      wrappedHandler := NewHandler(handler);
      lambdaContext := None;
    }

    /** handler.go:49-67 on the agent's shared tag map. */
    method SetPointTags(arn: string, info: FunctionInfo) returns (fault: Option<Error>)
      requires agent.config.pointTags.Some?
      modifies agent.config
      ensures agent.config.pointTags.Some? && SettingsKept(agent.config)
      ensures var pt := PointTags(arn, info);
        && (fault.None? <==> pt.Success?)
        && (pt.Success? ==> agent.config.pointTags.value == old(agent.config.pointTags.value) + pt.value)
        && (pt.Failure? ==> fault == Some(pt.error)
                            && agent.config.pointTags.value == old(agent.config.pointTags.value) + TagsBeforeFault(arn, info))
    {
      var tags;
      tags, fault := WriteArnTags(agent.config.pointTags.value, arn, info);
      agent.config.pointTags := Some(tags);
    }

    /** The deferred block of handler.go:69-84 up to the re-raise. */
    method Deferred(counted: bool, source: string)
      requires Valid()
      modifies globals.errCounter, agent.sender
      ensures Valid() && Snapshot() == Defer(old(Snapshot()), counted, source)
    {
      ghost var replies0 := agent.sender.replies;
      if counted {
        globals.errCounter.Increment(1);
        var ignored := agent.sender.Send(SendDeltaCounter(ErrorsMetric, globals.errCounter.val as real, source,
                                                          agent.config.pointTags.value));
      }
      var ignored := agent.sender.Send(Flush);
      agent.sender.CloseSender();
      DropAdd(replies0, 1, 1);
    }

    /** handler.go:96-105. */
    method CountResult(err: Option<Error>)
      requires Valid()
      modifies globals, globals.csCounter, globals.errCounter
      ensures Valid() && Snapshot() == Counted(old(Snapshot()), err)
    {
      if err.Some? {
        globals.errCounter.Increment(1);
      }
      if globals.coldStart {
        globals.csCounter.Increment(1);
        globals.coldStart := false;
      }
    }

    /** handler.go:110-117. */
    method RecordSeries(durationMs: int, mem: MemoryStats)
      requires Valid()
      modifies agent
      ensures Valid() && Snapshot() == Recorded(old(Snapshot()), durationMs, mem)
    {
      agent.counters := agent.counters[ColdStartsMetric := globals.csCounter.val as real];
      agent.counters := agent.counters[InvocationsMetric := globals.invocationsCounter.val as real];
      agent.metrics := agent.metrics[DurationMetric := durationMs as real];
      agent.metrics := agent.metrics[MemTotalMetric := mem.total];
      agent.metrics := agent.metrics[MemUsedMetric := mem.used];
      agent.metrics := agent.metrics[MemPercentageMetric := mem.usedPercentage];
    }

    /** handler.go:119-131: both map ranges, in some iteration order each. */
    method SendAll(reportTime: int, source: string, errIn: Option<Error>)
      returns (err: Option<Error>, ghost mo: seq<string>, ghost co: seq<string>)
      requires Valid()
      modifies agent.sender
      ensures IsOrdering(mo, agent.metrics.Keys) && IsOrdering(co, agent.counters.Keys)
      ensures Valid() && (Snapshot(), err) == Sent(old(Snapshot()), mo, co, reportTime, source, errIn)
    {
      ghost var s0 := Snapshot();
      var tags := agent.config.pointTags.value;
      err, mo := SendSeries(agent.sender, false, agent.metrics, reportTime, source, tags, errIn);
      err, co := SendSeries(agent.sender, true, agent.counters, reportTime, source, tags, err);
      SentOfSeries(s0, mo, co, reportTime, source, errIn);
      assert Snapshot() == s0.(log := agent.sender.log, replies := agent.sender.replies);
    }

    /** handler.go:90-133 and the deferred block, once the tags are written. */
    method Report(ctx: Context, payload: Value, info: FunctionInfo, codec: Codec, user: seq<Arg> -> Outcome,
                  durationMs: int, reportTime: int, mem: MemoryStats)
      returns (c: Completion, ghost mo: seq<string>, ghost co: seq<string>)
      requires Valid()
      modifies agent, agent.sender, globals, globals.csCounter, globals.invocationsCounter, globals.errCounter
      ensures Valid() && OrdersWithin(old(Snapshot()), mo, co)
      ensures c.Return? ==> IsOrdering(mo, agent.metrics.Keys) && IsOrdering(co, agent.counters.Keys)
      ensures (c, Snapshot()) == ReportSpec(old(Snapshot()), Call(wrappedHandler, ctx, payload, codec, user),
                                            info.name, durationMs, reportTime, mem, mo, co)
    {
      mo, co := [], [];
      globals.invocationsCounter.Increment(1);
      var h := Call(wrappedHandler, ctx, payload, codec, user);
      if h.Panic? {
        Deferred(true, info.name);
        return h, mo, co;
      }
      var response, err := h.val, h.err;
      CountResult(err);
      RecordSeries(durationMs, mem);
      err, mo, co := SendAll(reportTime, info.name, err);
      Deferred(err.Some?, info.name);
      c := Return(response, err);
    }

    /** `Invoke` (handler.go:43-134). Without a Lambda context the ARN read dereferences nil,
        and a too-short ARN faults while the tags are written; both happen before the deferred
        block is set up. */
    method Invoke(ctx: Context, payload: Value, info: FunctionInfo, codec: Codec, user: seq<Arg> -> Outcome,
                  durationMs: int, reportTime: int, mem: MemoryStats)
      returns (c: Completion, ghost mo: seq<string>, ghost co: seq<string>)
      requires Valid()
      modifies this, agent, agent.config, agent.sender, globals, globals.csCounter, globals.invocationsCounter, globals.errCounter
      ensures Valid() && lambdaContext == ctx.lambda && OrdersWithin(old(Snapshot()), mo, co)
      ensures SettingsKept(agent.config)
      ensures c.Return? ==> IsOrdering(mo, agent.metrics.Keys) && IsOrdering(co, agent.counters.Keys)
      ensures (c, Snapshot()) == InvokeSpec(old(Snapshot()), wrappedHandler, ctx, payload, info, codec, user,
                                            durationMs, reportTime, mem, mo, co)
    {
      mo, co := [], [];
      lambdaContext := ctx.lambda;
      if lambdaContext.None? {
        return Panic(ErrValue(NilPointerDereference)), mo, co;
      }
      var fault := SetPointTags(lambdaContext.value.invokedFunctionArn, info);
      if fault.Some? {
        return Panic(ErrValue(fault.value)), mo, co;
      }
      c, mo, co := Report(ctx, payload, info, codec, user, durationMs, reportTime, mem);
    }
  }

  /** `wrapHandler` (handler.go:19-24): every call builds a new wrapper, adapting and
      validating the handler again, and invokes it. */
  method WrappedCall(handler: HandlerSymbol, wa: Agent, globals: Globals, ctx: Context, payload: Value,
                     info: FunctionInfo, codec: Codec, user: seq<Arg> -> Outcome,
                     durationMs: int, reportTime: int, mem: MemoryStats)
    returns (c: Completion, ghost mo: seq<string>, ghost co: seq<string>)
    requires wa.Valid() && globals.Valid()
    modifies wa, wa.config, wa.sender, globals, globals.csCounter, globals.invocationsCounter, globals.errCounter
    ensures wa.Valid() && globals.Valid() && OrdersWithin(old(StateOf(wa, globals)), mo, co)
    ensures SettingsKept(wa.config)
    ensures (c, StateOf(wa, globals)) == InvokeSpec(old(StateOf(wa, globals)), NewHandler(handler), ctx, payload, info,
                                                   codec, user, durationMs, reportTime, mem, mo, co)
  {
    var hw := new HandlerWrapper(handler, wa, globals);
    c, mo, co := hw.Invoke(ctx, payload, info, codec, user, durationMs, reportTime, mem);
  }
}
