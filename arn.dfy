/** The point tags derived from the invoked function's ARN (handler.go:48-67, reporter.go:57-77).

    The ARN is split on ':' exactly as `strings.Split` does and fields are taken by position:
    field 3 is the region, field 4 the account id, field 5 the resource type, and field 6 (with
    an optional field 7) the resource. The source indexes without checking the length; an
    index past the end is Go's index-out-of-range panic, here an explicit `Failure`. */
module Arn {
  import opened Wrappers
  import opened GoValues

  /** `strings.Split(s, string(sep))`: never empty, and "" gives [""]. */
  function Split(s: string, sep: char): (r: seq<string>)
    ensures |r| >= 1
    decreases |s|
  {
    if |s| == 0 then [""]
    else
      var rest := Split(s[1..], sep);
      if s[0] == sep then [""] + rest else [[s[0]] + rest[0]] + rest[1..]
  }

  /** `strings.Join(segs, string(sep))`. */
  function Join(segs: seq<string>, sep: char): string
    decreases |segs|
  {
    if |segs| == 0 then "" else if |segs| == 1 then segs[0] else segs[0] + [sep] + Join(segs[1..], sep)
  }

  /** Splitting loses nothing: joining the fields back gives the original string. */
  lemma {:induction false} JoinSplit(s: string, sep: char)
    ensures Join(Split(s, sep), sep) == s
    decreases |s|
  {
    if |s| > 0 {
      JoinSplit(s[1..], sep);
      var rest := Split(s[1..], sep);
      if s[0] == sep {
        assert Split(s, sep)[1..] == rest;
      } else {
        var r := Split(s, sep);
        assert r[0] == [s[0]] + rest[0] && r[1..] == rest[1..];
        if |rest| > 1 {
          assert rest == [rest[0]] + rest[1..];
          assert Join(rest, sep) == rest[0] + [sep] + Join(rest[1..], sep);
        }
      }
    }
  }

  /** No field of a split contains the separator. */
  lemma {:induction false} SplitFieldsFree(s: string, sep: char)
    ensures forall i :: 0 <= i < |Split(s, sep)| ==> sep !in Split(s, sep)[i]
    decreases |s|
  {
    if |s| > 0 {
      SplitFieldsFree(s[1..], sep);
      var rest := Split(s[1..], sep);
      var r := Split(s, sep);
      if s[0] != sep {
        assert forall i :: 1 <= i < |r| ==> r[i] == rest[i];
        assert r[0] == [s[0]] + rest[0];
      } else {
        assert forall i :: 1 <= i < |r| ==> r[i] == rest[i - 1];
      }
    }
  }

  lemma {:induction false} SplitWithoutSeparator(a: string, sep: char)
    requires sep !in a
    ensures Split(a, sep) == [a]
    decreases |a|
  {
    if |a| > 0 {
      SplitWithoutSeparator(a[1..], sep);
      assert [a[0]] + a[1..] == a;
    }
  }

  lemma {:induction false} SplitAfterField(a: string, t: string, sep: char)
    requires sep !in a
    ensures Split(a + [sep] + t, sep) == [a] + Split(t, sep)
    decreases |a|
  {
    var s := a + [sep] + t;
    if |a| == 0 {
      assert s[1..] == t;
    } else {
      assert s[1..] == a[1..] + [sep] + t;
      SplitAfterField(a[1..], t, sep);
      assert [a[0]] + a[1..] == a;
    }
  }

  /** Splitting inverts joining fields that do not contain the separator. */
  lemma {:induction false} SplitJoin(segs: seq<string>, sep: char)
    requires |segs| >= 1
    requires forall i :: 0 <= i < |segs| ==> sep !in segs[i]
    ensures Split(Join(segs, sep), sep) == segs
    decreases |segs|
  {
    if |segs| == 1 {
      SplitWithoutSeparator(segs[0], sep);
    } else {
      SplitJoin(segs[1..], sep);
      SplitAfterField(segs[0], Join(segs[1..], sep), sep);
    }
  }

  // ---------------------------------------------------------------------------
  // Point tags.

  /** The fields the tag code indexes are all present. */
  predicate HasTagFields(segs: seq<string>) {
    |segs| >= 6 && (segs[5] == "function" || segs[5] == "event-source-mappings" ==> |segs| >= 7)
  }

  /** The resource tag of a function ARN: the name, with the qualifier only when there are
      exactly eight fields. */
  function ResourceName(segs: seq<string>): string
    requires |segs| >= 7
  {
    if |segs| == 8 then segs[6] + ":" + segs[7] else segs[6]
  }

  /** The tags of reporter.go:62-77, built as a fresh map. */
  function PointTags(arn: string, info: FunctionInfo): (r: Result<map<string, string>, Error>)
    ensures var segs := Split(arn, ':');
      && (r.Success? <==> HasTagFields(segs))
      && (r.Failure? ==> r.error == IndexOutOfRange(if |segs| < 3 then 3 else |segs|, |segs|))
  {
    var segs := Split(arn, ':');
    if |segs| < 6 then Failure(IndexOutOfRange(if |segs| < 3 then 3 else |segs|, |segs|))
    else
      var base := map["LambdaArn" := arn, "source" := info.name, "FunctionName" := info.name,
                      "ExecutedVersion" := info.version, "Region" := segs[3], "accountId" := segs[4]];
      if segs[5] == "function" then
        if |segs| < 7 then Failure(IndexOutOfRange(|segs|, |segs|))
        else Success(base["Resource" := ResourceName(segs)])
      else if segs[5] == "event-source-mappings" then
        if |segs| < 7 then Failure(IndexOutOfRange(|segs|, |segs|))
        else Success(base["EventSourceMappings" := segs[6]])
      else Success(base)
  }

  /** The complete tags: the six leading keys, plus `Resource` for a function and
      `EventSourceMappings` for an event source mapping, with the values taken from the
      fields. */
  lemma PointTagsContents(arn: string, info: FunctionInfo)
    requires PointTags(arn, info).Success?
    ensures var segs := Split(arn, ':'); var t := PointTags(arn, info).value;
      && t.Keys == {"LambdaArn", "source", "FunctionName", "ExecutedVersion", "Region", "accountId"}
                   + (if segs[5] == "function" then {"Resource"} else {})
                   + (if segs[5] == "event-source-mappings" then {"EventSourceMappings"} else {})
      && t["LambdaArn"] == arn && t["source"] == info.name
      && t["FunctionName"] == info.name && t["ExecutedVersion"] == info.version
      && t["Region"] == segs[3] && t["accountId"] == segs[4]
      && ("Resource" in t ==> t["Resource"] == ResourceName(segs))
      && ("EventSourceMappings" in t ==> t["EventSourceMappings"] == segs[6])
  {
  }

  /** What handler.go:53-58 has written into the shared tag map by the time an index faults:
      the four fields taken from the context, then `Region` and `accountId` as far as the
      ARN reaches. */
  function TagsBeforeFault(arn: string, info: FunctionInfo): map<string, string>
  {
    var segs := Split(arn, ':');
    var m := map["LambdaArn" := arn, "source" := info.name, "FunctionName" := info.name,
                 "ExecutedVersion" := info.version];
    var m := if |segs| > 3 then m["Region" := segs[3]] else m;
    if |segs| > 4 then m["accountId" := segs[4]] else m
  }

  /** The tag naming the resource, for ARNs that have the fields it needs. */
  function ResourceTags(segs: seq<string>): map<string, string>
    requires HasTagFields(segs)
  {
    if segs[5] == "function" then map["Resource" := ResourceName(segs)]
    else if segs[5] == "event-source-mappings" then map["EventSourceMappings" := segs[6]]
    else map[]
  }

  /** The complete tags are the leading ones, which a fault may cut short, followed by the
      resource tag. */
  lemma PointTagsSplit(arn: string, info: FunctionInfo)
    requires PointTags(arn, info).Success?
    ensures HasTagFields(Split(arn, ':'))
    ensures PointTags(arn, info).value == TagsBeforeFault(arn, info) + ResourceTags(Split(arn, ':'))
  {
  }

  /** The leading tags: the four taken from the context, then `Region` and `accountId` as
      far as the ARN reaches. */
  lemma TagsBeforeFaultContents(arn: string, info: FunctionInfo)
    ensures var segs := Split(arn, ':'); var m := TagsBeforeFault(arn, info);
      && m.Keys == {"LambdaArn", "source", "FunctionName", "ExecutedVersion"}
                   + (if |segs| > 3 then {"Region"} else {}) + (if |segs| > 4 then {"accountId"} else {})
      && m["LambdaArn"] == arn && m["source"] == info.name
      && m["FunctionName"] == info.name && m["ExecutedVersion"] == info.version
      && (|segs| > 3 ==> m["Region"] == segs[3]) && (|segs| > 4 ==> m["accountId"] == segs[4])
  {
  }

  /** Every key the ARN code may write. */
  const ArnTagKeys: set<string> := {"LambdaArn", "source", "FunctionName", "ExecutedVersion", "Region", "accountId",
                                    "Resource", "EventSourceMappings"}

  /** Both tag maps use only the ARN keys. */
  lemma PointTagKeys(arn: string, info: FunctionInfo)
    ensures TagsBeforeFault(arn, info).Keys <= ArnTagKeys
    ensures PointTags(arn, info).Success? ==> PointTags(arn, info).value.Keys <= ArnTagKeys
  {
    TagsBeforeFaultContents(arn, info);
    if PointTags(arn, info).Success? {
      PointTagsContents(arn, info);
    }
  }

  /** The writes before a fault are a prefix of the complete ones: whatever a faulting ARN
      leaves in the map is what a complete ARN with the same leading fields would set. */
  lemma FaultTagsArePrefix(arn: string, info: FunctionInfo)
    requires PointTags(arn, info).Success?
    ensures forall k :: k in TagsBeforeFault(arn, info) ==>
      k in PointTags(arn, info).value && PointTags(arn, info).value[k] == TagsBeforeFault(arn, info)[k]
  {
  }

  // ---------------------------------------------------------------------------
  // A reference description of the identifiers the code recognises.

  /** A field of an ARN: no ':' inside. */
  predicate IsField(f: string) { ':' !in f }

  /** `arn:<partition>:<service>:<region>:<account>:function:<name>[:<qualifier>]`,
      `arn:<partition>:<service>:<region>:<account>:event-source-mappings:<id>`, or any
      other resource type followed by further fields. */
  datatype ResourceArn =
    | FunctionArn(partition: string, service: string, region: string, account: string,
                  name: string, qualifier: Option<string>)
    | EventSourceMappingArn(partition: string, service: string, region: string, account: string,
                            id: string)
    | OtherArn(partition: string, service: string, region: string, account: string,
               resourceType: string, rest: seq<string>)
  {
    predicate Valid() {
      && IsField(partition) && IsField(service) && IsField(region) && IsField(account)
      && (FunctionArn? ==> IsField(name) && (qualifier.Some? ==> IsField(qualifier.value)))
      && (EventSourceMappingArn? ==> IsField(id))
      && (OtherArn? ==> IsField(resourceType) && resourceType != "function"
                        && resourceType != "event-source-mappings"
                        && forall i :: 0 <= i < |rest| ==> IsField(rest[i]))
    }

    function Fields(): seq<string> {
      var head := ["arn", partition, service, region, account];
      match this
      case FunctionArn(_, _, _, _, n, q) =>
        head + ["function", n] + (if q.Some? then [q.value] else [])
      case EventSourceMappingArn(_, _, _, _, i) => head + ["event-source-mappings", i]
      case OtherArn(_, _, _, _, t, r) => head + [t] + r
    }

    function Format(): string {
      Join(Fields(), ':')
    }

    /** The tags a well-formed identifier of this shape should carry. */
    function ExpectedTags(info: FunctionInfo): map<string, string> {
      var base := map["LambdaArn" := Format(), "source" := info.name, "FunctionName" := info.name,
                      "ExecutedVersion" := info.version, "Region" := region, "accountId" := account];
      match this
      case FunctionArn(_, _, _, _, n, q) =>
        base["Resource" := if q.Some? then n + ":" + q.value else n]
      case EventSourceMappingArn(_, _, _, _, i) => base["EventSourceMappings" := i]
      case OtherArn(_, _, _, _, _, _) => base
    }
  }

  /** Parsing a formatted identifier recovers region, account and resource: the tag
      derivation is the inverse of the ARN syntax it expects. */
  lemma PointTagsOfFormat(a: ResourceArn, info: FunctionInfo)
    requires a.Valid()
    ensures PointTags(a.Format(), info) == Success(a.ExpectedTags(info))
  {
    var fs := a.Fields();
    assert forall i :: 0 <= i < |fs| ==> IsField(fs[i]);
    SplitJoin(fs, ':');
    assert Split(a.Format(), ':') == fs;
  }
}
