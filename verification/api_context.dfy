/** The API operation store of src/Context/ApiContext.tsx: four async
    wrappers around the HTTP client that share one `{loading, error}` pair.
    The HTTP call itself is outside the model; its outcome is a parameter. */
module Api {
  import opened Common

  /** What a rejected HTTP call carries that the store looks at:
      `err.response?.data?.message`, absent when any link is missing. */
  datatype ApiError = ApiError(serverMessage: Option<string>)

  /** How the awaited HTTP call ended: resolved with a response whose `data`
      is the payload, or rejected with an error. */
  datatype HttpOutcome<+T> = Response(data: T) | Rejected(err: ApiError)

  /** The four operations of the store. */
  datatype Operation = LoginOp | RegisterOp | ProviderRegisterOp | LocationOp

  /** The fixed message each operation stores when it cannot use the server's. */
  function FallbackMessage(op: Operation): string
  {
    match op
    case LoginOp => "Login failed"
    case RegisterOp => "Register failed"
    case ProviderRegisterOp => "Provider register failed"
    case LocationOp => "Location fetch failed"
  }

  /** The message stored in `error` when operation `op` fails with `e`:
      the server's message when it is truthy, except that the location lookup
      always uses its own; otherwise the operation's fallback. Never empty. */
  function FailureMessage(op: Operation, e: ApiError): (r: string)
    ensures r != ""
    ensures op != LocationOp && Truthy(e.serverMessage) ==> r == e.serverMessage.value
    ensures op == LocationOp || !Truthy(e.serverMessage) ==> r == FallbackMessage(op)
  {
    match op
    case LocationOp => FallbackMessage(op)
    case _ => OrElse(e.serverMessage, FallbackMessage(op))
  }

  /** The four fallbacks tell the operations apart. */
  lemma FallbackMessagesDistinct(a: Operation, b: Operation)
    ensures FallbackMessage(a) == FallbackMessage(b) <==> a == b
  {
  }

  /** The state `ApiProvider` creates and shares with every caller. */
  class ApiStore {
    var loading: bool
    var error: Option<string>

    /** While an operation is in flight no error is on display. */
    ghost predicate Valid()
      reads this
    {
      loading ==> error == None
    }

    constructor ()
      ensures Valid()
      ensures !loading && error == None
    {
      loading := false;
      error := None;
    }

    /** The start of every operation, before the HTTP call is awaited. */
    method Begin()
      modifies this
      ensures Valid()
      ensures loading && error == None
    {
      loading := true;
      error := None;
    }

    /** The rest of operation `op` once the HTTP call has ended: on success
        return the payload unchanged; on failure store the message and pass
        the same error on to the caller; in both cases clear `loading`. */
    method Settle<T>(op: Operation, outcome: HttpOutcome<T>) returns (r: Result<T, ApiError>)
      modifies this
      ensures Valid()
      ensures !loading
      ensures outcome.Response? ==> r == Success(outcome.data) && error == old(error)
      ensures outcome.Rejected? ==> r == Failure(outcome.err) && error == Some(FailureMessage(op, outcome.err))
    {
      match outcome {
        case Response(data) =>
          r := Success(data);
        case Rejected(err) =>
          error := Some(FailureMessage(op, err));
          r := Failure(err);
      }
      loading := false;
    }

    /** A whole operation run to completion. */
    method Run<T>(op: Operation, outcome: HttpOutcome<T>) returns (r: Result<T, ApiError>)
      modifies this
      ensures Valid()
      ensures !loading
      ensures r.Success? <==> outcome.Response?
      ensures outcome.Response? ==> r == Success(outcome.data) && error == None
      ensures outcome.Rejected? ==> r == Failure(outcome.err) && error == Some(FailureMessage(op, outcome.err))
    {
      Begin();
      r := Settle(op, outcome);
    }

    /** `login`: POST of the credentials to the login endpoint. */
    method Login<T>(outcome: HttpOutcome<T>) returns (r: Result<T, ApiError>)
      modifies this
      ensures Valid() && !loading
      ensures outcome.Response? ==> r == Success(outcome.data) && error == None
      ensures outcome.Rejected? ==> r == Failure(outcome.err) && error == Some(FailureMessage(LoginOp, outcome.err))
    {
      r := Run(LoginOp, outcome);
    }

    /** `register`: POST of the new user to the register endpoint. */
    method Register<T>(outcome: HttpOutcome<T>) returns (r: Result<T, ApiError>)
      modifies this
      ensures Valid() && !loading
      ensures outcome.Response? ==> r == Success(outcome.data) && error == None
      ensures outcome.Rejected? ==> r == Failure(outcome.err) && error == Some(FailureMessage(RegisterOp, outcome.err))
    {
      r := Run(RegisterOp, outcome);
    }

    /** `providerRegister`: POST of the provider to the provider endpoint. */
    method ProviderRegister<T>(outcome: HttpOutcome<T>) returns (r: Result<T, ApiError>)
      modifies this
      ensures Valid() && !loading
      ensures outcome.Response? ==> r == Success(outcome.data) && error == None
      ensures outcome.Rejected? ==> r == Failure(outcome.err) && error == Some(FailureMessage(ProviderRegisterOp, outcome.err))
    {
      r := Run(ProviderRegisterOp, outcome);
    }

    /** `getLocation`: GET of the reverse-geocode endpoint for a position. */
    method GetLocation<T>(outcome: HttpOutcome<T>) returns (r: Result<T, ApiError>)
      modifies this
      ensures Valid() && !loading
      ensures outcome.Response? ==> r == Success(outcome.data) && error == None
      ensures outcome.Rejected? ==> r == Failure(outcome.err) && error == Some(FallbackMessage(LocationOp))
    {
      r := Run(LocationOp, outcome);
    }
  }
}
