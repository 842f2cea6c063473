/** handler.go, the adaptation layer: signature validation, the permanently failing
    `errorHandler`, and the closure `newHandler` builds around a valid handler.

    `reflect.Call` and `encoding/json` are abstracted: the user handler is a function from its
    argument list to an `Outcome`, and `json.Marshal`/`json.Unmarshal` are the two functions of
    a `Codec` (the unmarshaller already knows the handler's event type). */
module Handler {
  import opened Wrappers
  import opened GoValues

  /** `validateArguments`: at most two parameters; with two, the first must be a Context.
      The result says whether the handler takes a Context. */
  function ValidateArguments(sig: Sig): (r: Result<bool, Error>)
    ensures sig.numIn > 2 ==> r == Failure(TooManyArguments(sig.numIn))
    ensures sig.numIn == 2 && !sig.firstIsContext ==> r == Failure(FirstArgumentNotContext)
    ensures r.Failure? <==> sig.numIn > 2 || (sig.numIn == 2 && !sig.firstIsContext)
    ensures r.Success? ==> r.value == (sig.numIn > 0 && sig.firstIsContext)
  {
    if sig.numIn > 2 then Failure(TooManyArguments(sig.numIn))
    else if sig.numIn > 0 then
      var takesContext := sig.firstIsContext;
      if sig.numIn > 1 && !takesContext then Failure(FirstArgumentNotContext) else Success(takesContext)
    else Success(false)
  }

  /** `validateReturns`: at most two results, and the last one (if any) must be an error. */
  function ValidateReturns(sig: Sig): (r: Option<Error>)
    ensures var outs := sig.outIsError;
      && (|outs| > 2 ==> r == Some(TooManyReturns))
      && (|outs| == 2 ==> (r.None? <==> outs[1]) && (r.Some? ==> r.value == SecondReturnNotError))
      && (|outs| == 1 ==> (r.None? <==> outs[0]) && (r.Some? ==> r.value == SingleReturnNotError))
      && (|outs| == 0 ==> r.None?)
  {
    var outs := sig.outIsError;
    if |outs| > 2 then Some(TooManyReturns)
    else if |outs| > 1 then (if !outs[1] then Some(SecondReturnNotError) else None)
    else if |outs| == 1 then (if !outs[0] then Some(SingleReturnNotError) else None)
    else None
  }

  /** The accepted call shapes, stated directly: zero to two parameters with a Context first
      when there are two, zero to two results with an error last when there are any. */
  predicate WellFormed(sig: Sig) {
    && sig.numIn <= 2
    && (sig.numIn == 2 ==> sig.firstIsContext)
    && |sig.outIsError| <= 2
    && (|sig.outIsError| > 0 ==> sig.outIsError[|sig.outIsError| - 1])
  }

  /** The function `newHandler` returns: a fixed error, or the adapting closure for a
      validated signature. */
  datatype Adapted = ErrorHandler(e: Error) | Adapter(sig: Sig, takesContext: bool)

  /** `newHandler`: rejects nil, non-functions and rejected signatures with the validator's
      error, and otherwise adapts a handler exactly when its signature is well formed. */
  function NewHandler(h: HandlerSymbol): (a: Adapted)
    ensures h.NilHandler? ==> a == ErrorHandler(HandlerIsNil)
    ensures h.NonFunction? ==> a == ErrorHandler(NotAFunction(h.kind))
    ensures a.Adapter? <==> h.Function? && WellFormed(h.sig)
    ensures a.Adapter? ==> a.sig == h.sig && a.takesContext == (h.sig.numIn > 0 && h.sig.firstIsContext)
    ensures h.Function? && ValidateArguments(h.sig).Failure? ==> a == ErrorHandler(ValidateArguments(h.sig).error)
    ensures h.Function? && ValidateArguments(h.sig).Success? && ValidateReturns(h.sig).Some? ==>
      a == ErrorHandler(ValidateReturns(h.sig).value)
  {
    match h
    case NilHandler => ErrorHandler(HandlerIsNil)
    case NonFunction(kind) => ErrorHandler(NotAFunction(kind))
    case Function(sig) =>
      match ValidateArguments(sig)
      case Failure(e) => ErrorHandler(e)
      case Success(takesContext) =>
        match ValidateReturns(sig)
        case Some(e) => ErrorHandler(e)
        case None => Adapter(sig, takesContext)
  }

  /** Whether the closure decodes the payload into an event argument. */
  predicate TakesEvent(numIn: nat, takesContext: bool) {
    (numIn == 1 && !takesContext) || numIn == 2
  }

  /** The argument list the closure appends: the Context if taken, then the event if taken. */
  function Arguments(takesContext: bool, ctx: Context, event: Option<Value>): seq<Arg> {
    (if takesContext then [ContextArg(ctx)] else []) + (if event.Some? then [EventArg(event.value)] else [])
  }

  datatype Codec = Codec(marshal: Value -> Result<Bytes, Error>, unmarshal: Bytes -> Result<Value, Error>)

  /** The payload round trip the closure performs before the call: marshal, then unmarshal
      into the handler's event type. */
  function DecodeEvent(codec: Codec, payload: Value): Result<Value, Error> {
    match codec.marshal(payload)
    case Failure(e) => Failure(e)
    case Success(bytes) => codec.unmarshal(bytes)
  }

  /** handler.go:220-232: the error is the last slot when that holds an error, the value is
      slot 0 when there are at least two slots. */
  function ConvertResponse(slots: seq<Value>): (Value, Option<Error>) {
    (if |slots| > 1 then slots[0] else Nil, if |slots| > 0 then SlotError(slots[|slots| - 1]) else None)
  }

  /** How a handler's outcome reaches the caller of the closure: panics propagate, result
      slots are converted. */
  function Dispatch(o: Outcome): Completion {
    match o
    case Panicked(p) => Panic(p)
    case Returned(slots) => Return(ConvertResponse(slots).0, ConvertResponse(slots).1)
  }

  /** One call of the function `newHandler` returned. An error handler answers `(nil, e)`
      whatever it is given; the adapter returns `(nil, err)` without calling the handler when
      the payload does not decode, and otherwise calls it with `Arguments`. */
  function Call(a: Adapted, ctx: Context, payload: Value, codec: Codec, user: seq<Arg> -> Outcome): (r: Completion)
    ensures a.ErrorHandler? ==> r == Return(Nil, Some(a.e))
    ensures a.Adapter? && TakesEvent(a.sig.numIn, a.takesContext) && DecodeEvent(codec, payload).Failure? ==>
      r == Return(Nil, Some(DecodeEvent(codec, payload).error))
    ensures a.Adapter? && TakesEvent(a.sig.numIn, a.takesContext) && DecodeEvent(codec, payload).Success? ==>
      r == Dispatch(user(Arguments(a.takesContext, ctx, Some(DecodeEvent(codec, payload).value))))
    ensures a.Adapter? && !TakesEvent(a.sig.numIn, a.takesContext) ==>
      r == Dispatch(user(Arguments(a.takesContext, ctx, None)))
  {
    match a
    case ErrorHandler(e) => Return(Nil, Some(e))
    case Adapter(sig, takesContext) =>
      var args := if takesContext then [ContextArg(ctx)] else [];
      if TakesEvent(sig.numIn, takesContext) then
        match codec.marshal(payload)
        case Failure(e) => Return(Nil, Some(e))
        case Success(bytes) =>
          match codec.unmarshal(bytes)
          case Failure(e) => Return(Nil, Some(e))
          case Success(event) => Dispatch(user(args + [EventArg(event)]))
      else
        assert args == Arguments(takesContext, ctx, None);
        Dispatch(user(args))
  }

  // ---------------------------------------------------------------------------
  // Properties.

  /** The validators accept exactly the well-formed signatures. */
  lemma ValidationIsWellFormedness(sig: Sig)
    ensures ValidateArguments(sig).Success? && ValidateReturns(sig).None? <==> WellFormed(sig)
  {
  }

  /** A handler that is not adapted fails every call with the same error, and never reaches
      user code. */
  lemma RejectedHandlerAlwaysFails(h: HandlerSymbol, ctx: Context, payload: Value, codec: Codec,
                                   user: seq<Arg> -> Outcome)
    requires !(h.Function? && WellFormed(h.sig))
    ensures NewHandler(h).ErrorHandler?
    ensures Call(NewHandler(h), ctx, payload, codec, user) == Return(Nil, Some(NewHandler(h).e))
  {
  }

  /** For an adapted signature the argument list has one entry per parameter, the Context
      comes first exactly when the handler takes one, and the event comes last exactly when
      the closure decodes one. */
  lemma ArgumentsMatchSignature(h: HandlerSymbol, ctx: Context, event: Value)
    requires NewHandler(h).Adapter?
    ensures var a := NewHandler(h);
      var args := Arguments(a.takesContext, ctx, if TakesEvent(a.sig.numIn, a.takesContext) then Some(event) else None);
      && |args| == h.sig.numIn
      && (|args| > 0 ==> (args[0] == ContextArg(ctx) <==> a.takesContext))
      && (TakesEvent(a.sig.numIn, a.takesContext) <==> |args| > 0 && args[|args| - 1] == EventArg(event))
  {
  }

  /** A decoding failure returns the same thing whatever the user handler would do: the
      handler is not called. */
  lemma DecodeFailureSkipsHandler(a: Adapted, ctx: Context, payload: Value, codec: Codec,
                                  user1: seq<Arg> -> Outcome, user2: seq<Arg> -> Outcome)
    requires a.Adapter? && TakesEvent(a.sig.numIn, a.takesContext) && DecodeEvent(codec, payload).Failure?
    ensures Call(a, ctx, payload, codec, user1) == Call(a, ctx, payload, codec, user2)
  {
  }

  /** The result slots a Go function with `n` (at most two) results leaves for `(val, err)`. */
  function Returns(n: nat, val: Value, err: Option<Error>): seq<Value>
    requires n <= 2
  {
    if n == 0 then [] else if n == 1 then [ErrorSlot(err)] else [val, ErrorSlot(err)]
  }

  /** Slots of the types a signature declares: an error-typed slot holds nil or an error. */
  predicate WellTyped(sig: Sig, slots: seq<Value>) {
    |slots| == |sig.outIsError|
    && forall i :: 0 <= i < |slots| && sig.outIsError[i] ==> slots[i].Nil? || slots[i].ErrValue?
  }

  /** Conversion inverts `Returns`: `(42, nil)` gives back 42 and no error, a lone error
      result gives `(nil, err)`, and no results give `(nil, nil)`. */
  lemma ConvertReturns(n: nat, val: Value, err: Option<Error>)
    requires n <= 2
    ensures ConvertResponse(Returns(n, val, err)) == (if n == 2 then val else Nil, if n > 0 then err else None)
  {
  }

  /** For a well-formed signature, conversion loses nothing: the slots are exactly those the
      converted pair stands for. */
  lemma ConvertLosesNothing(sig: Sig, slots: seq<Value>)
    requires WellFormed(sig) && WellTyped(sig, slots)
    ensures slots == Returns(|slots|, ConvertResponse(slots).0, ConvertResponse(slots).1)
  {
  }
}
