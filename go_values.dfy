/** The values that flow through the instrumentation shim, shared by both build variants
    (handler.go/agent.go and wflambda.go/wrapper.go/reporter.go).

    Reflection is replaced by data: a handler is described by its `Sig`, its arguments and
    results are `Value`s, and the user code behind it is a function from the argument list to
    an `Outcome` (a normal return or a panic). */
module GoValues {
  import opened Wrappers

  type Bytes = seq<int>

  /** Errors that the shim produces or passes on. The validation errors stand for the
      messages of handler.go:145-168; `Decode` and `User` carry an opaque error identity. */
  datatype Error =
    | HandlerIsNil
    | NotAFunction(kind: string)
    | TooManyArguments(count: nat)
    | FirstArgumentNotContext
    | TooManyReturns
    | SecondReturnNotError
    | SingleReturnNotError
    | Decode(code: int)
    | User(code: int)
    | Sender(code: int)
    | IndexOutOfRange(index: nat, length: nat)
    | NilPointerDereference

  /** A Go `interface{}` value: nil, a string, a number, a value implementing `error`,
      or any other opaque value. */
  datatype Value = Nil | Str(s: string) | Num(n: int) | ErrValue(err: Error) | Opaque(id: int)

  /** What `recover()` can hand back; `panic(nil)` is outside the model. */
  type PanicValue = v: Value | !v.Nil? witness Num(0)

  /** The part of the AWS Lambda context the shim reads. */
  datatype LambdaContext = LambdaContext(invokedFunctionArn: string)

  /** A `context.Context`; `lambda` is None when `lambdacontext.FromContext` finds nothing. */
  datatype Context = Context(lambda: Option<LambdaContext>)

  /** The package variables `lambdacontext.FunctionName` and `lambdacontext.FunctionVersion`. */
  datatype FunctionInfo = FunctionInfo(name: string, version: string)

  /** The reflected type of a function handler: number of parameters, whether the first one
      implements `context.Context`, and for each result whether its type implements `error`. */
  datatype Sig = Sig(numIn: nat, firstIsContext: bool, outIsError: seq<bool>)

  /** The `interface{}` handed to the shim as a handler. */
  datatype HandlerSymbol = NilHandler | NonFunction(kind: string) | Function(sig: Sig)

  /** An argument passed to the user handler by `reflect.Value.Call`. */
  datatype Arg = ContextArg(ctx: Context) | EventArg(event: Value)

  /** What the user handler did when called: returned its result slots, or panicked. */
  datatype Outcome = Returned(slots: seq<Value>) | Panicked(p: PanicValue)

  /** How a call of a `(context, payload) -> (interface{}, error)` function ended. */
  datatype Completion = Return(val: Value, err: Option<Error>) | Panic(p: PanicValue)

  /** The error held by a result slot: `v.(error)` succeeds only for a non-nil error value. */
  function SlotError(v: Value): Option<Error> {
    if v.ErrValue? then Some(v.err) else None
  }

  /** The result slot a Go function stores for an error result. */
  function ErrorSlot(err: Option<Error>): Value {
    if err.Some? then ErrValue(err.value) else Nil
  }

  /** `os.Getenv`: the empty string for an unset variable. */
  function Getenv(env: map<string, string>, key: string): string {
    if key in env then env[key] else ""
  }
}
