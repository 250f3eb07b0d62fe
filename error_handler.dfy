/**
 * The central error translator: `createError`, `handleError` and the
 * `errorHandler` middleware that turns a forwarded error into a status
 * code and a JSON body.
 */
module ErrorHandler {
  import opened Wrappers
  import opened Zod

  /**
   * A value passed to `next(...)` or thrown. `createError` and `ZodError`
   * are both subclasses of `Error`; `NodeError` is any other `Error`
   * instance, `Other` anything that is neither a string nor an `Error`.
   */
  datatype Thrown =
    | Str(s: string)
    | CreateErr(message: string, code: int)
    | ZodErr(error: ZodError)
    | NodeError(stack: Option<string>)
    | Other

  /** `_error instanceof createError` */
  predicate InstanceOfCreateError(t: Thrown) { t.CreateErr? }

  /** `_error instanceof ZodError` */
  predicate InstanceOfZodError(t: Thrown) { t.ZodErr? }

  /** `_error instanceof Error`: true of every subclass instance too. */
  predicate InstanceOfError(t: Thrown) { t.CreateErr? || t.ZodErr? || t.NodeError? }

  const UNEXPECTED_MESSAGE: string := "Unexpected error has occurred"
  const UNKNOWN_MESSAGE: string := "Unknown error"
  const UNCAUGHT_NOTE: string := "uncaught exception or unhandled rejection, Node process finished !!"

  /** `handleErrorType`: message, code and the optional `uncaught` text. */
  datatype HandledError = HandledError(message: string, code: int, uncaught: Option<string>)

  /** The body `errorHandler` sends: the message and whatever else the handled error carries. */
  datatype ErrorResponse = ErrorResponse(status: int, message: string, uncaught: Option<string>)

  /** `new createError(message, code)`: the code defaults to 500. */
  function CreateError(message: string, code: Option<int>): (t: Thrown)
    ensures InstanceOfCreateError(t) && InstanceOfError(t) && t.message == message
    ensures code.None? ==> t.code == 500
    ensures code.Some? ==> t.code == code.value
  {
    CreateErr(message, if code.Some? then code.value else 500)
  }

  /** `_error.stack || 'Unknown error'`: an absent or empty stack is falsy. */
  function StackOrUnknown(stack: Option<string>): (m: string)
    ensures stack.Some? && stack.value != "" ==> m == stack.value
    ensures !(stack.Some? && stack.value != "") ==> m == UNKNOWN_MESSAGE
  {
    if stack.Some? && stack.value != "" then stack.value else UNKNOWN_MESSAGE
  }

  /**
   * `handleError({_error, uncaught})`. The branches are tried in the
   * source's order; `zodErrorToString` renders a zod failure.
   */
  function HandleError(t: Thrown, uncaught: bool, zodErrorToString: ZodError -> string): (e: HandledError)
    ensures t.Str? ==> e.code == 500 && e.message == t.s
    ensures InstanceOfCreateError(t) ==> e.code == t.code && e.message == t.message
    ensures InstanceOfZodError(t) ==> e.code == 400 && e.message == zodErrorToString(t.error)
    ensures t.NodeError? ==> e.code == 500 && e.message == StackOrUnknown(t.stack)
    ensures t.Other? ==> e.code == 500 && e.message == UNEXPECTED_MESSAGE
    ensures e.uncaught == (if uncaught then Some(UNCAUGHT_NOTE) else None)
  {
    var base :=
      if t.Str? then
        var made := CreateError(t.s, None);
        HandledError(made.message, made.code, None)
      else if InstanceOfCreateError(t) then HandledError(t.message, t.code, None)
      else if InstanceOfZodError(t) then HandledError(zodErrorToString(t.error), 400, None)
      else if InstanceOfError(t) then HandledError(StackOrUnknown(t.stack), 500, None)
      else HandledError(UNEXPECTED_MESSAGE, 500, None);
    if uncaught then base.(uncaught := Some(UNCAUGHT_NOTE)) else base
  }

  /** `errorHandler`: the response status is the handled code, and the body never carries `uncaught`. */
  function ErrorHandler(t: Thrown, zodErrorToString: ZodError -> string): (r: ErrorResponse)
    ensures r.uncaught.None?
    ensures t.Str? ==> r.status == 500 && r.message == t.s
    ensures InstanceOfCreateError(t) ==> r.status == t.code && r.message == t.message
    ensures InstanceOfZodError(t) ==> r.status == 400 && r.message == zodErrorToString(t.error)
    ensures t.NodeError? ==> r.status == 500 && r.message == StackOrUnknown(t.stack)
    ensures t.Other? ==> r.status == 500 && r.message == UNEXPECTED_MESSAGE
  {
    var e := HandleError(t, false, zodErrorToString);
    ErrorResponse(e.code, e.message, e.uncaught)
  }

  /**
   * Branch priority: a `createError` or a `ZodError` is an `Error`, yet
   * neither reaches the generic branch, which would answer 500 with a stack.
   */
  lemma SubclassesBeforeGenericError(t: Thrown, uncaught: bool, zodErrorToString: ZodError -> string)
    requires InstanceOfCreateError(t) || InstanceOfZodError(t)
    ensures InstanceOfError(t)
    ensures InstanceOfCreateError(t) ==> HandleError(t, uncaught, zodErrorToString).code == t.code
    ensures InstanceOfCreateError(t) ==> HandleError(t, uncaught, zodErrorToString).message == t.message
    ensures InstanceOfZodError(t) ==> HandleError(t, uncaught, zodErrorToString).code == 400
  {
  }

  /** The `uncaught` flag adds its note and leaves code and message alone. */
  lemma UncaughtOnlyAddsNote(t: Thrown, zodErrorToString: ZodError -> string)
    ensures HandleError(t, true, zodErrorToString)
         == HandleError(t, false, zodErrorToString).(uncaught := Some(UNCAUGHT_NOTE))
  {
  }

  /**
   * The properties a reader of the value `handleError` returns as written
   * finds on it. Without the flag, a string error comes back as a
   * `createError` instance whose `message` is readable. With the flag, the
   * value is the spread `{...error, uncaught}`, which copies only
   * enumerable properties; a `createError` instance's `message` is an own
   * but non-enumerable property, so for a string error it is lost.
   */
  datatype ReturnedFields = ReturnedFields(message: Option<string>, code: int, uncaught: Option<string>)

  function HandleErrorAsWritten(t: Thrown, uncaught: bool, zodErrorToString: ZodError -> string): (o: ReturnedFields)
    ensures o.code == HandleError(t, uncaught, zodErrorToString).code
    ensures !uncaught ==> o.message == Some(HandleError(t, false, zodErrorToString).message) && o.uncaught.None?
    ensures uncaught ==> o.uncaught == Some(UNCAUGHT_NOTE) && (o.message.None? <==> t.Str?)
    ensures uncaught && !t.Str? ==> o.message == Some(HandleError(t, false, zodErrorToString).message)
  {
    var e := HandleError(t, false, zodErrorToString);
    var messageNotEnumerable := t.Str?;
    if uncaught then
      ReturnedFields(if messageNotEnumerable then None else Some(e.message), e.code, Some(UNCAUGHT_NOTE))
    else ReturnedFields(Some(e.message), e.code, None)
  }

  /** The discrepancy: an uncaught string error loses its message once the note is spread in. */
  lemma UncaughtStringLosesMessage(s: string, zodErrorToString: ZodError -> string)
    ensures HandleErrorAsWritten(Str(s), true, zodErrorToString).message.None?
    ensures HandleError(Str(s), true, zodErrorToString).message == s
  {
  }
}
