/** agent.go: the agent of the handler.go build variant, its configuration and the process
    globals it shares with `HandlerWrapper.Invoke`.

    Pointer fields of `WavefrontConfig` are `Option`s (nil is `None`). The environment is a
    map read through `Getenv`. The Wavefront sender is external; it is modelled as an object
    that records every call in a ghost log and answers from a list of replies fixed in advance. */
module Agent {
  import opened Wrappers
  import opened GoValues
  import opened Strings
  import opened Counters

  const DefaultEnabled: bool := true
  const DefaultBatchSize: int := 10000
  const DefaultMaxBufferSize: int := 50000
  const DefaultFlushIntervalSeconds: int := 1

  /** `WavefrontConfig`, updated in place by `NewWavefrontAgent`. */
  class WavefrontConfig {
    var enabled: Option<bool>
    var server: Option<string>
    var token: Option<string>
    var batchSize: Option<int>
    var maxBufferSize: Option<int>
    var pointTags: Option<map<string, string>>

    constructor (enabled: Option<bool>, server: Option<string>, token: Option<string>,
                 batchSize: Option<int>, maxBufferSize: Option<int>,
                 pointTags: Option<map<string, string>>)
      ensures this.enabled == enabled && this.server == server && this.token == token
      ensures this.batchSize == batchSize && this.maxBufferSize == maxBufferSize
      ensures this.pointTags == pointTags
    {
      this.enabled := enabled;
      this.server := server;
      this.token := token;
      this.batchSize := batchSize;
      this.maxBufferSize := maxBufferSize;
      this.pointTags := pointTags;
    }

    /** `PointTags[key] = value` on the config's (non-nil) tag map. */
    method PutPointTag(key: string, value: string)
      requires pointTags.Some?
      modifies this
      ensures pointTags == Some(old(pointTags).value[key := value])
      ensures enabled == old(enabled) && server == old(server) && token == old(token)
      ensures batchSize == old(batchSize) && maxBufferSize == old(maxBufferSize)
    {
      pointTags := Some(pointTags.value[key := value]);
    }
  }

  /** Every setting of `c` except its point tags is as it was. */
  twostate predicate SettingsKept(c: WavefrontConfig)
    reads c
  {
    && c.enabled == old(c.enabled) && c.server == old(c.server) && c.token == old(c.token)
    && c.batchSize == old(c.batchSize) && c.maxBufferSize == old(c.maxBufferSize)
  }

  /** `wavefront.DirectConfiguration`, what the sender is created with. */
  datatype DirectConfiguration = DirectConfiguration(server: string, token: string, batchSize: int,
                                                     maxBufferSize: int, flushIntervalSeconds: int)

  /** One call on the sender. */
  datatype SenderCall =
    | SendMetric(name: string, value: real, timestamp: int, source: string, tags: map<string, string>)
    | SendDeltaCounter(name: string, value: real, source: string, tags: map<string, string>)
    | Flush
    | Close

  /** The reply at position `i` of a reply list; past its end every call succeeds. */
  function Reply(replies: seq<Option<Error>>, i: nat): Option<Error> {
    if i < |replies| then replies[i] else None
  }

  /** The replies left after `n` calls. */
  function Drop(replies: seq<Option<Error>>, n: nat): seq<Option<Error>> {
    if n < |replies| then replies[n..] else []
  }

  class Sender {
    const config: DirectConfiguration
    var replies: seq<Option<Error>>
    ghost var log: seq<SenderCall>

    constructor (config: DirectConfiguration, replies: seq<Option<Error>>)
      ensures this.config == config && this.replies == replies && log == []
    {
      this.config := config;
      this.replies := replies;
      log := [];
    }

    /** A call that reports an error: the next reply answers it. */
    method Send(c: SenderCall) returns (err: Option<Error>)
      modifies this
      ensures log == old(log) + [c]
      ensures err == Reply(old(replies), 0) && replies == Drop(old(replies), 1)
    {
      log := log + [c];
      err := Reply(replies, 0);
      replies := Drop(replies, 1);
    }

    /** `Close`, which reports nothing. */
    method CloseSender()
      modifies this
      ensures log == old(log) + [Close] && replies == old(replies)
    {
      log := log + [Close];
    }
  }

  /** The package globals of agent.go:10-19. `Valid` holds from process start: the cold-start
      counter is 1 exactly once the flag has been cleared, so it never exceeds one. */
  class Globals {
    var coldStart: bool
    const csCounter: Counter
    const invocationsCounter: Counter
    const errCounter: Counter

    ghost predicate Valid()
      reads this, csCounter
    {
      && csCounter != invocationsCounter && csCounter != errCounter && invocationsCounter != errCounter
      && csCounter.val == (if coldStart then 0 else 1)
    }

    constructor ()
      ensures Valid() && coldStart
      ensures fresh(csCounter) && fresh(invocationsCounter) && fresh(errCounter)
      ensures csCounter.val == 0 && invocationsCounter.val == 0 && errCounter.val == 0
    {
      coldStart := true;
      csCounter := new Counter();
      invocationsCounter := new Counter();
      errCounter := new Counter();
    }
  }

  // ---------------------------------------------------------------------------
  // Configuration precedence.

  /** Enabled: a non-empty `WAVEFRONT_ENABLED` decides (only "true" enables), else the
      configured value, else the default. */
  function ResolveEnabled(envEnabled: string, configured: Option<bool>): (r: bool)
    ensures envEnabled != "" ==> (r <==> envEnabled == "true")
    ensures envEnabled == "" && configured.Some? ==> r == configured.value
    ensures envEnabled == "" && configured.None? ==> r
  {
    if envEnabled != "" then StringToBool(envEnabled) else configured.GetOr(DefaultEnabled)
  }

  /** Server and token: the environment value if non-empty, else the configured value,
      else the (empty) environment value. */
  function ResolveEndpoint(envValue: string, configured: Option<string>): (r: string)
    ensures |envValue| > 0 ==> r == envValue
    ensures |envValue| == 0 ==> r == configured.GetOr("")
  {
    if configured.Some? && |envValue| == 0 then configured.value else envValue
  }

  /** Batch and buffer sizes: an environment value that parses as an int wins, else the
      configured value, else the default; an unparsable value changes nothing. */
  function ResolveSize(envValue: string, configured: Option<int>, default: int): (r: int)
    ensures StringToInt(envValue).Success? ==> r == StringToInt(envValue).value
    ensures StringToInt(envValue).Failure? ==> r == configured.GetOr(default)
  {
    if envValue != "" && StringToInt(envValue).Success? then StringToInt(envValue).value
    else configured.GetOr(default)
  }

  /** The write-back of agent.go:99-105 and 112-118: the config field takes the environment
      value only when it parses. */
  function WrittenSize(envValue: string, configured: Option<int>): (r: Option<int>)
    ensures StringToInt(envValue).Success? ==> r == Some(StringToInt(envValue).value)
    ensures StringToInt(envValue).Failure? ==> r == configured
  {
    if envValue != "" && StringToInt(envValue).Success? then Some(StringToInt(envValue).value) else configured
  }

  /** agent.go:73-80, step by step: default, then the configured value, then the environment. */
  method ReadEnabled(envEnabled: string, configured: Option<bool>) returns (enabled: bool)
    ensures enabled == ResolveEnabled(envEnabled, configured)
  {
    enabled := DefaultEnabled;
    if configured.Some? {
      enabled := configured.value;
    }
    if envEnabled != "" {
      enabled := StringToBool(envEnabled);
    }
  }

  /** agent.go:82-92: the environment value, replaced by the configured one when it is empty. */
  method ReadEndpoint(envValue: string, configured: Option<string>) returns (value: string)
    ensures value == ResolveEndpoint(envValue, configured)
  {
    value := envValue;
    if configured.Some? && |envValue| == 0 {
      value := configured.value;
    }
  }

  /** agent.go:94-118: the effective size and the value written back into the config field. */
  method ReadSize(envValue: string, configured: Option<int>, default: int) returns (size: int, written: Option<int>)
    ensures size == ResolveSize(envValue, configured, default)
    ensures written == WrittenSize(envValue, configured)
  {
    size := default;
    written := configured;
    if configured.Some? {
      size := configured.value;
    }
    if envValue != "" {
      var parsed := StringToInt(envValue);
      if parsed.Success? {
        written := Some(parsed.value);
        size := parsed.value;
      }
    }
  }

  // ---------------------------------------------------------------------------
  // Reporting a map of series.

  /** The sender call reporting one series: a gauge with the report time, or a delta counter. */
  function SeriesCall(delta: bool, name: string, value: real, reportTime: int, source: string,
                      tags: map<string, string>): SenderCall
  {
    if delta then SendDeltaCounter(name, value, source, tags) else SendMetric(name, value, reportTime, source, tags)
  }

  /** The calls reporting the series of `m` in the order `order`. */
  function SeriesCalls(delta: bool, m: map<string, real>, order: seq<string>, reportTime: int, source: string,
                       tags: map<string, string>): (calls: seq<SenderCall>)
    requires forall k :: k in order ==> k in m
    ensures |calls| == |order|
  {
    if |order| == 0 then []
    else
      var last := order[|order| - 1];
      SeriesCalls(delta, m, order[..|order| - 1], reportTime, source, tags) + [SeriesCall(delta, last, m[last], reportTime, source, tags)]
  }

  /** Call `i` reports the `i`-th series of the order, with its value in `m`. */
  lemma {:induction false} SeriesCallsAt(delta: bool, m: map<string, real>, order: seq<string>, reportTime: int,
                                         source: string, tags: map<string, string>, i: nat)
    requires forall k :: k in order ==> k in m
    requires i < |order|
    ensures SeriesCalls(delta, m, order, reportTime, source, tags)[i]
            == SeriesCall(delta, order[i], m[order[i]], reportTime, source, tags)
  {
    if i < |order| - 1 {
      var rest := order[..|order| - 1];
      SeriesCallsAt(delta, m, rest, reportTime, source, tags, i);
      assert rest[i] == order[i];
    }
  }

  predicate Distinct(s: seq<string>) {
    forall i, j :: 0 <= i < j < |s| ==> s[i] != s[j]
  }

  /** Reporting one more series appends its call. */
  lemma SeriesCallsAppend(delta: bool, m: map<string, real>, order: seq<string>, k: string, reportTime: int,
                          source: string, tags: map<string, string>)
    requires forall k :: k in order ==> k in m
    requires k in m
    ensures SeriesCalls(delta, m, order + [k], reportTime, source, tags)
            == SeriesCalls(delta, m, order, reportTime, source, tags) + [SeriesCall(delta, k, m[k], reportTime, source, tags)]
  {
    assert (order + [k])[..|order|] == order;
  }

  /** A key not yet listed keeps the list distinct. */
  lemma DistinctAppend(order: seq<string>, k: string)
    requires Distinct(order) && k !in order
    ensures Distinct(order + [k])
  {
  }

  /** Part way through a map range: `order` lists the keys visited, once each, and
      `remaining` the keys still to come. */
  ghost predicate Partition(keys: set<string>, remaining: set<string>, order: seq<string>) {
    && remaining <= keys
    && (forall x :: x in keys <==> x in remaining || x in order)
    && (forall x :: x in order ==> x !in remaining)
    && Distinct(order)
  }

  /** Visiting one more key keeps the partition. */
  lemma PartitionStep(keys: set<string>, remaining: set<string>, order: seq<string>, k: string)
    requires Partition(keys, remaining, order) && k in remaining
    ensures Partition(keys, remaining - {k}, order + [k])
  {
    DistinctAppend(order, k);
  }

  /** `order` lists every key of `keys` once: one Go iteration order of a map. */
  ghost predicate IsOrdering(order: seq<string>, keys: set<string>) {
    Distinct(order) && forall k :: k in keys <==> k in order
  }

  /** The error variable after `n` sends that each overwrite it, starting from `err`. */
  function LastReply(err: Option<Error>, replies: seq<Option<Error>>, n: nat): Option<Error> {
    if n == 0 then err else Reply(replies, n - 1)
  }

  /** Dropping `a` replies and then `b` is dropping `a + b`. */
  lemma DropAdd(replies: seq<Option<Error>>, a: nat, b: nat)
    ensures Drop(Drop(replies, a), b) == Drop(replies, a + b)
    ensures Reply(Drop(replies, a), b) == Reply(replies, a + b)
  {
    if a + b < |replies| {
      assert Drop(replies, a)[b..] == replies[a + b..];
    }
  }

  /** A distinct list of keys has as many entries as the set it enumerates. */
  lemma {:induction false} OrderingCardinality(order: seq<string>, keys: set<string>)
    requires IsOrdering(order, keys)
    ensures |order| == |keys|
  {
    if |order| > 0 {
      var last := order[|order| - 1];
      var rest := order[..|order| - 1];
      assert IsOrdering(rest, keys - {last}) by {
        forall k ensures k in keys - {last} <==> k in rest {
          if k in order && k != last {
            var i :| 0 <= i < |order| && order[i] == k;
            assert i < |order| - 1;
            assert rest[i] == k;
          }
        }
      }
      OrderingCardinality(rest, keys - {last});
    }
  }

  /** One turn of the range: after sending series `k`, the log, the replies left and the
      error variable are those of the longer order. */
  lemma SendStep(delta: bool, m: map<string, real>, order: seq<string>, k: string, reportTime: int, source: string,
                 tags: map<string, string>, log0: seq<SenderCall>, replies0: seq<Option<Error>>, errIn: Option<Error>,
                 log1: seq<SenderCall>, replies1: seq<Option<Error>>)
    requires forall x :: x in order ==> x in m
    requires k in m
    requires log1 == log0 + SeriesCalls(delta, m, order, reportTime, source, tags)
    requires replies1 == Drop(replies0, |order|)
    ensures log1 + [SeriesCall(delta, k, m[k], reportTime, source, tags)]
            == log0 + SeriesCalls(delta, m, order + [k], reportTime, source, tags)
    ensures Drop(replies1, 1) == Drop(replies0, |order + [k]|)
    ensures Reply(replies1, 0) == LastReply(errIn, replies0, |order + [k]|)
  {
    DropAdd(replies0, |order|, 0);
    DropAdd(replies0, |order|, 1);
    SeriesCallsAppend(delta, m, order, k, reportTime, source, tags);
  }

  /** Sends every series of `m` in some order (a Go map range), letting each reply overwrite
      the error variable, which starts as `errIn`. */
  method SendSeries(sender: Sender, delta: bool, m: map<string, real>, reportTime: int, source: string,
                    tags: map<string, string>, errIn: Option<Error>)
    returns (err: Option<Error>, ghost order: seq<string>)
    modifies sender
    ensures IsOrdering(order, m.Keys) && |order| == |m|
    ensures sender.log == old(sender.log) + SeriesCalls(delta, m, order, reportTime, source, tags)
    ensures sender.replies == Drop(old(sender.replies), |order|)
    ensures err == LastReply(errIn, old(sender.replies), |order|)
  {
    ghost var log0 := sender.log;
    ghost var replies0 := sender.replies;
    var remaining := m.Keys;
    order := [];
    err := errIn;
    while remaining != {}
      invariant Partition(m.Keys, remaining, order)
      invariant sender.log == log0 + SeriesCalls(delta, m, order, reportTime, source, tags)
      invariant sender.replies == Drop(replies0, |order|)
      invariant err == LastReply(errIn, replies0, |order|)
      decreases remaining
    {
      var k :| k in remaining;
      PartitionStep(m.Keys, remaining, order, k);
      ghost var log1, replies1 := sender.log, sender.replies;
      err := sender.Send(SeriesCall(delta, k, m[k], reportTime, source, tags));
      SendStep(delta, m, order, k, reportTime, source, tags, log0, replies0, errIn, log1, replies1);
      order := order + [k];
      remaining := remaining - {k};
    }
    assert IsOrdering(order, m.Keys);
    OrderingCardinality(order, m.Keys);
  }

  /** A `WrapHandler` result: the unchanged handler, or the instrumented `wrapHandler` closure
      over this agent. */
  datatype Wrapped = Unwrapped(handler: HandlerSymbol) | Instrumented(handler: HandlerSymbol)

  class Agent {
    const config: WavefrontConfig
    var metrics: map<string, real>
    var counters: map<string, real>
    const sender: Sender

    ghost predicate Valid()
      reads this, config
    {
      config.enabled.Some? && config.pointTags.Some?
    }

    /** `NewWavefrontAgent(w)`: resolves every setting by precedence, writes back the point
        tags, the parsed sizes and the resolved `Enabled` into `w` (leaving `Server` and
        `Token` as they were), and creates the sender with the resolved values. */
    constructor (w: WavefrontConfig, env: map<string, string>, senderReplies: seq<Option<Error>>)
      modifies w
      ensures config == w && Valid()
      ensures w.pointTags == Some(old(w.pointTags).GetOr(map[]))
      ensures w.enabled == Some(ResolveEnabled(Getenv(env, "WAVEFRONT_ENABLED"), old(w.enabled)))
      ensures w.server == old(w.server) && w.token == old(w.token)
      ensures w.batchSize == WrittenSize(Getenv(env, "WAVEFRONT_BATCH_SIZE"), old(w.batchSize))
      ensures w.maxBufferSize == WrittenSize(Getenv(env, "WAVEFRONT_MAX_BUFFER_SIZE"), old(w.maxBufferSize))
      ensures fresh(sender) && sender.log == [] && sender.replies == senderReplies
      ensures sender.config == DirectConfiguration(
        ResolveEndpoint(Getenv(env, "WAVEFRONT_URL"), old(w.server)),
        ResolveEndpoint(Getenv(env, "WAVEFRONT_API_TOKEN"), old(w.token)),
        ResolveSize(Getenv(env, "WAVEFRONT_BATCH_SIZE"), old(w.batchSize), DefaultBatchSize),
        ResolveSize(Getenv(env, "WAVEFRONT_MAX_BUFFER_SIZE"), old(w.maxBufferSize), DefaultMaxBufferSize),
        DefaultFlushIntervalSeconds)
      ensures metrics == map[] && counters == map[]
    {
      metrics := map[];
      counters := map[];

      if w.pointTags.None? {
        w.pointTags := Some(map[]);
      }

      var enabled := ReadEnabled(Getenv(env, "WAVEFRONT_ENABLED"), w.enabled);
      var server := ReadEndpoint(Getenv(env, "WAVEFRONT_URL"), w.server);
      var token := ReadEndpoint(Getenv(env, "WAVEFRONT_API_TOKEN"), w.token);
      var batchSize, writtenBatchSize := ReadSize(Getenv(env, "WAVEFRONT_BATCH_SIZE"), w.batchSize, DefaultBatchSize);
      w.batchSize := writtenBatchSize;
      var maxBufferSize, writtenMaxBufferSize :=
        ReadSize(Getenv(env, "WAVEFRONT_MAX_BUFFER_SIZE"), w.maxBufferSize, DefaultMaxBufferSize);
      w.maxBufferSize := writtenMaxBufferSize;

      var dc := DirectConfiguration(server, token, batchSize, maxBufferSize, 1);
      sender := new Sender(dc, senderReplies);
      config := w;
      w.enabled := Some(enabled);
    }

    /** `WrapHandler`: a disabled agent hands the handler back untouched. */
    function WrapHandler(handler: HandlerSymbol): (r: Wrapped)
      reads this, config
      requires config.enabled.Some?
      ensures r.handler == handler
      ensures r.Unwrapped? <==> !config.enabled.value
    {
      if !config.enabled.value then Unwrapped(handler) else Instrumented(handler)
    }

    /** `RegisterMetric`: sets one gauge value, overwriting any previous one. */
    method RegisterMetric(name: string, value: real)
      modifies this
      ensures metrics == old(metrics)[name := value] && counters == old(counters)
    {
      metrics := metrics[name := value];
    }

    /** `RegisterCounter`: sets one counter value, overwriting any previous one. */
    method RegisterCounter(name: string, value: real)
      modifies this
      ensures counters == old(counters)[name := value] && metrics == old(metrics)
    {
      counters := counters[name := value];
    }
  }

  /** agent_test.go:13-37, as a client of the contracts above. The test sets environment
      variables and never clears them, so `env` grows as it does. */
  method AgentScenarios()
  {
    var env: map<string, string> := map[];
    var none := new WavefrontConfig(None, None, None, None, None, None);
    var wa := new Agent(none, env, []);
    assert none.server.None? && none.enabled == Some(true) && none.pointTags == Some(map[]);

    var on := new WavefrontConfig(Some(StringToBool("true")), None, None, None, None, None);
    wa := new Agent(on, env, []);
    assert on.enabled == Some(StringToBool("true"));

    env := env["WAVEFRONT_ENABLED" := "false"];
    var off := new WavefrontConfig(None, None, None, None, None, None);
    wa := new Agent(off, env, []);
    assert off.enabled == Some(StringToBool("false"));

    var server := new WavefrontConfig(None, Some("https://instance.wavefront.com"), None, None, None, None);
    wa := new Agent(server, env, []);
    assert server.server == Some("https://instance.wavefront.com");

    var token := new WavefrontConfig(None, None, Some("my-api-token"), None, None, None);
    wa := new Agent(token, env, []);
    assert token.token == Some("my-api-token");
  }

  /** agent_test.go:39-59, in the environment the earlier cases left, and one case beyond
      the test: an environment value that does not parse leaves the config alone. */
  method AgentSizeScenarios()
  {
    StringToIntExamples();
    var env := map["WAVEFRONT_ENABLED" := "false"];
    var one := new WavefrontConfig(None, None, None, Some(1), None, None);
    var wa := new Agent(one, env, []);
    assert one.batchSize == Some(1);

    env := env["WAVEFRONT_BATCH_SIZE" := "12"];
    var twelve := new WavefrontConfig(None, None, None, None, None, None);
    wa := new Agent(twelve, env, []);
    assert twelve.batchSize == Some(12) && wa.sender.config.batchSize == 12;

    var ten := new WavefrontConfig(None, None, None, None, Some(10), None);
    wa := new Agent(ten, env, []);
    assert ten.maxBufferSize == Some(10);

    env := env["WAVEFRONT_MAX_BUFFER_SIZE" := "120"];
    var buffered := new WavefrontConfig(None, None, None, None, None, None);
    wa := new Agent(buffered, env, []);
    assert buffered.maxBufferSize == Some(120) && wa.sender.config.maxBufferSize == 120;

    var junk := new WavefrontConfig(None, None, None, Some(5), None, None);
    wa := new Agent(junk, map["WAVEFRONT_BATCH_SIZE" := "bla"], []);
    assert junk.batchSize == Some(5) && wa.sender.config.batchSize == 5;
  }

  /** agent_test.go:61-72, in the environment the earlier cases left. */
  method AgentRegisterScenarios()
  {
    var env := map["WAVEFRONT_ENABLED" := "false", "WAVEFRONT_BATCH_SIZE" := "12",
                   "WAVEFRONT_MAX_BUFFER_SIZE" := "120"];
    var blank := new WavefrontConfig(None, None, None, None, None, None);
    var wa := new Agent(blank, env, []);
    wa.RegisterCounter("counter1", 1.0);
    assert wa.counters == map["counter1" := 1.0];
    wa.RegisterMetric("metric1", 1.0);
    assert wa.metrics == map["metric1" := 1.0];

    var disabled := new WavefrontConfig(Some(StringToBool("false")), None, None, None, None, None);
    wa := new Agent(disabled, env, []);
    assert wa.WrapHandler(NonFunction("bla")) == Unwrapped(NonFunction("bla"));
  }
}
