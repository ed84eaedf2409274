/** The client's error value and the failure-carrying result type the rest of
    the model returns in place of Python's `raise`. */
module Exceptions {
  import opened Python

  /** `SimApiError`: a message and an optional HTTP status code, which is `None`
      unless the raiser passes one. */
  datatype SimApiError = SimApiError(message: string, statusCode: Option<int> := None)

  /** `str(error)`: the message, prefixed by the status code and ": " when the
      code is present (a code of 0 included). */
  function ErrorText(e: SimApiError): (r: string)
    ensures |r| >= |e.message| && r[|r| - |e.message|..] == e.message
    ensures e.statusCode.None? ==> r == e.message
    ensures e.statusCode.Some? ==>
              var k := |r| - |e.message| - 2;
              k >= 1 && r[k..k + 2] == ": " && ParseInt(r[..k]) == Some(e.statusCode.value)
  {
    match e.statusCode
    case None => e.message
    case Some(code) =>
      var prefix := IntToString(code);
      IntToStringRoundTrip(code);
      assert (prefix + ": " + e.message)[..|prefix|] == prefix;
      prefix + ": " + e.message
  }

  /** The rendering keeps a status code of 0: it is tested with `is not None`. */
  lemma ZeroStatusIsPrefixed(message: string)
    ensures ErrorText(SimApiError(message, Some(0))) == "0: " + message
  {
  }

  /** A status code is never rendered when none was given. */
  lemma DefaultStatusIsAbsent(message: string)
    ensures SimApiError(message).statusCode == None
    ensures ErrorText(SimApiError(message)) == message
  {
  }

  /** The exceptions the client lets escape: its own error, the `TypeError` and
      `AttributeError` that record conversion raises on ill-shaped input, and the
      `UnicodeDecodeError` of a successful response whose body is not UTF-8. */
  datatype Raised =
    | ApiError(error: SimApiError)
    | TypeError
    | AttributeError
    | UnicodeDecodeError

  /** What loading credentials raises. */
  datatype CredentialError =
    | FileNotFoundError(message: string)
    | ValueError(message: string)

  datatype Result<+T, +E> = Ok(value: T) | Err(error: E) {
    predicate IsFailure() { Err? }
    function PropagateFailure<U>(): Result<U, E> requires Err? { Err(error) }
    function Extract(): T requires Ok? { value }
  }

  /** A call that either returns a value or raises one of the client's exceptions. */
  type Outcome<T> = Result<T, Raised>

  /** `raise SimApiError(message)`, with no status code. */
  function Fail<T>(message: string): (r: Outcome<T>)
    ensures r.Err? && r.error.ApiError? && r.error.error.message == message
    ensures r.error.error.statusCode.None?
  {
    Err(ApiError(SimApiError(message)))
  }
}
