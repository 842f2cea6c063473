/** reporter.go: metric names, the environment check and the report-gated updates of the
    wflambda.go / wrapper.go build variant.

    go-metrics counters and gauges are objects with one integer field; a nil metric interface
    is a null reference, and calling a method on it panics. */
module Reporter {
  import opened Wrappers
  import opened GoValues

  const MetricPrefix: string := "aws.lambda.wf."
  const EventSuffix: string := "_event"

  /** `getStandardLambdaMetricName`. */
  function StandardMetricName(metric: string, isEvent: bool): (r: string)
    ensures |r| == |MetricPrefix| + |metric| + (if isEvent then |EventSuffix| else 0)
    ensures r[..|MetricPrefix|] == MetricPrefix
    ensures r[|MetricPrefix|..|MetricPrefix| + |metric|] == metric
    ensures isEvent ==> r[|MetricPrefix| + |metric|..] == EventSuffix
  {
    MetricPrefix + metric + (if isEvent then EventSuffix else "")
  }

  /** Names of the same kind are equal only for equal metrics. */
  lemma StandardMetricNameInjective(m1: string, m2: string, isEvent: bool)
    requires StandardMetricName(m1, isEvent) == StandardMetricName(m2, isEvent)
    ensures m1 == m2
  {
    var r := StandardMetricName(m1, isEvent);
    assert |m1| == |m2|;
    assert m1 == r[|MetricPrefix|..|MetricPrefix| + |m1|] == m2;
  }

  /** The prefix a Wavefront delta counter name carries (U+2206, as go-metrics-wavefront
      writes it). */
  function DeltaCounterName(name: string): (r: string)
    ensures |r| == |name| + 1 && r[0] == '\U{2206}' && r[1..] == name
  {
    "\U{2206}" + name
  }

  const UrlNotSet: string := "Environmental variable WAVEFRONT_URL is not set."
  const TokenNotSet: string := "Environmental variable WAVEFRONT_API_TOKEN is not set."

  /** The outcome of `getAndValidateLambdaEnvironment` (reporter.go:103-119): a panic with
      its message, or whether standard metrics are reported. */
  function CheckLambdaEnvironment(env: map<string, string>): (r: Result<bool, string>)
    ensures Getenv(env, "WAVEFRONT_URL") == "" ==> r == Failure(UrlNotSet)
    ensures Getenv(env, "WAVEFRONT_URL") != "" && Getenv(env, "WAVEFRONT_API_TOKEN") == "" ==> r == Failure(TokenNotSet)
    ensures r.Success? <==> Getenv(env, "WAVEFRONT_URL") != "" && Getenv(env, "WAVEFRONT_API_TOKEN") != ""
    ensures r.Success? ==>
      (!r.value <==> Getenv(env, "IS_REPORT_STANDARD_METRICS") == "False" || Getenv(env, "IS_REPORT_STANDARD_METRICS") == "false")
  {
    if Getenv(env, "WAVEFRONT_URL") == "" then Failure(UrlNotSet)
    else if Getenv(env, "WAVEFRONT_API_TOKEN") == "" then Failure(TokenNotSet)
    else
      var flag := Getenv(env, "IS_REPORT_STANDARD_METRICS");
      Success(!(flag == "False" || flag == "false"))
  }

  /** Only the two spellings switch reporting off; the token is not looked at when the URL
      is missing. */
  lemma CheckLambdaEnvironmentExamples(url: string, token: string)
    requires url != "" && token != ""
    ensures CheckLambdaEnvironment(map["WAVEFRONT_URL" := url, "WAVEFRONT_API_TOKEN" := token]) == Success(true)
    ensures CheckLambdaEnvironment(map["WAVEFRONT_URL" := url, "WAVEFRONT_API_TOKEN" := token,
                                       "IS_REPORT_STANDARD_METRICS" := "FALSE"]) == Success(true)
    ensures CheckLambdaEnvironment(map["WAVEFRONT_URL" := url, "WAVEFRONT_API_TOKEN" := token,
                                       "IS_REPORT_STANDARD_METRICS" := "False"]) == Success(false)
    ensures CheckLambdaEnvironment(map["WAVEFRONT_API_TOKEN" := token]) == Failure(UrlNotSet)
  {
    var flags := map["WAVEFRONT_URL" := url, "WAVEFRONT_API_TOKEN" := token, "IS_REPORT_STANDARD_METRICS" := "FALSE"];
    assert Getenv(flags, "IS_REPORT_STANDARD_METRICS") == "FALSE";
    assert "FALSE" != "False" by { assert "FALSE"[1] != "False"[1]; }
    assert "FALSE" != "false" by { assert "FALSE"[0] != "false"[0]; }
  }

  /** A go-metrics counter. */
  class MetricCounter {
    var count: int

    /** `metrics.NewCounter()`. */
    constructor ()
      ensures count == 0
    {
      count := 0;
    }
  }

  /** A go-metrics gauge. */
  class MetricGauge {
    var value: int

    /** `metrics.NewGauge()`. */
    constructor ()
      ensures value == 0
    {
      value := 0;
    }
  }

  /** `incrementCounter` (reporter.go:14-18): adds `value` only when reporting; when
      reporting, a nil counter panics. */
  method IncrementCounter(counter: MetricCounter?, value: int, report: bool) returns (fault: Option<Error>)
    modifies counter
    ensures !report ==> fault.None? && (counter != null ==> counter.count == old(counter.count))
    ensures report && counter == null ==> fault == Some(NilPointerDereference)
    ensures report && counter != null ==> fault.None? && counter.count == old(counter.count) + value
  {
    if report {
      if counter == null {
        return Some(NilPointerDereference);
      }
      counter.count := counter.count + value;
    }
    fault := None;
  }

  /** `updateGauge` (reporter.go:20-24): sets the gauge only when reporting; when reporting,
      a nil gauge panics. */
  method UpdateGauge(gauge: MetricGauge?, value: int, report: bool) returns (fault: Option<Error>)
    modifies gauge
    ensures !report ==> fault.None? && (gauge != null ==> gauge.value == old(gauge.value))
    ensures report && gauge == null ==> fault == Some(NilPointerDereference)
    ensures report && gauge != null ==> fault.None? && gauge.value == value
  {
    if report {
      if gauge == null {
        return Some(NilPointerDereference);
      }
      gauge.value := value;
    }
    fault := None;
  }
}
