/**
  The IDology service: credential loading at construction, the shared base
  parameters, the parameter builder and the call routine that assembles
  what is handed to the HTTP transport collaborator.
 */
module IDologyService {
  import opened Wrappers
  import opened Operations

  /** The exceptions the service raises, one constructor per kind. */
  datatype Error =
    | ArgumentNullError(paramName: string)  // ArgumentNullException(nameof(...))
    | ArgumentError(message: string)        // ArgumentException(message)
    | NullReferenceError                    // dereferencing a null argument array
    | GeneralError(message: string)         // Exception(message)

  /**
    The two configuration lookups the service performs: the values under
    "IDology:Username" and "IDology:Password", None where the key is absent.
   */
  datatype Configuration = Configuration(username: Option<string>, password: Option<string>)

  const ResponseFormat := "JSON"
  const CredentialsMessage := "Username or Password is not configured properly."
  const ParseErrorPrefix := "Error: "

  /** C#'s string.IsNullOrEmpty. */
  predicate IsNullOrEmpty(s: Option<string>) {
    s.None? || s.value == ""
  }

  /**
    The base parameters prepended to every request: the credentials and the
    response format, or the configuration error when a credential is missing
    or empty.
   */
  function InitializeBaseParams(config: Configuration): (r: Result<seq<string>, Error>)
    ensures r.Success? <==> !IsNullOrEmpty(config.username) && !IsNullOrEmpty(config.password)
    ensures r.Failure? ==> r.error == ArgumentError(CredentialsMessage)
    ensures r.Success? ==> r.value == [config.username.value, config.password.value, ResponseFormat]
    ensures r.Success? ==> forall k :: 0 <= k < |r.value| ==> r.value[k] != ""
  {
    if IsNullOrEmpty(config.username) || IsNullOrEmpty(config.password) then
      Failure(ArgumentError(CredentialsMessage))
    else
      Success([config.username.value, config.password.value, ResponseFormat])
  }

  /**
    The outcome of ParseResponse, given the outcome of reading the response
    body and deserializing it (both foreign): a decoded response is returned
    as it is, and any failure is re-raised as a general error whose message
    is "Error: " followed by the original message.
   */
  function ParseResponse<T>(decoded: Result<T, string>): (r: Result<T, Error>)
    ensures r.Success? <==> decoded.Success?
    ensures r.Success? ==> r.value == decoded.value
    ensures r.Failure? ==> r.error.GeneralError? && WrappedMessage(r.error) == Some(decoded.error)
  {
    match decoded
    case Success(response) => Success(response)
    case Failure(message) => Failure(GeneralError(ParseErrorPrefix + message))
  }

  /** The original failure message inside an error raised by ParseResponse. */
  function WrappedMessage(e: Error): Option<string> {
    if e.GeneralError? && |ParseErrorPrefix| <= |e.message| && e.message[..|ParseErrorPrefix|] == ParseErrorPrefix then
      Some(e.message[|ParseErrorPrefix|..])
    else
      None
  }

  /**
    The HTTP request-building collaborator (IRequestFactory). Its
    CreateRequest and the request's CallAPIAsync are not part of this model;
    the service's calls return what they would be handed instead.
   */
  class RequestFactory {
    constructor () {
    }
  }

  class Service {
    const requestFactory: RequestFactory
    const config: Configuration
    /** Computed once at construction; as a constant it never changes afterwards. */
    const baseParams: seq<string>

    /** A constructed service holds exactly the base parameters its configuration yields. */
    predicate Valid() {
      InitializeBaseParams(config) == Success(baseParams)
    }

    /** The assignments of the C# constructor once its checks have passed (see Create). */
    constructor (requestFactory: RequestFactory, config: Configuration)
      requires InitializeBaseParams(config).Success?
      ensures Valid()
      ensures this.requestFactory == requestFactory && this.config == config
    {
      this.requestFactory := requestFactory;
      this.config := config;
      this.baseParams := InitializeBaseParams(config).value;
    }

    /**
      The C# constructor with its exceptions as errors: it rejects a null
      request factory, then a null configuration, then missing credentials,
      and otherwise yields a new, valid service.
     */
    static method Create(requestFactory: RequestFactory?, config: Option<Configuration>) returns (r: Result<Service, Error>)
      ensures requestFactory == null ==> r == Failure(ArgumentNullError("requestFactory"))
      ensures requestFactory != null && config.None? ==> r == Failure(ArgumentNullError("config"))
      ensures requestFactory != null && config.Some? ==>
        (r.Success? <==> InitializeBaseParams(config.value).Success?)
      ensures requestFactory != null && config.Some? && r.Failure? ==>
        r.error == ArgumentError(CredentialsMessage)
      ensures r.Success? ==> fresh(r.value) && r.value.Valid()
      ensures r.Success? ==> r.value.requestFactory == requestFactory && Some(r.value.config) == config
    {
      if requestFactory == null {
        return Failure(ArgumentNullError("requestFactory"));
      }
      if config.None? {
        return Failure(ArgumentNullError("config"));
      }
      var base := InitializeBaseParams(config.value);
      if base.Failure? {
        return Failure(base.error);
      }
      var s := new Service(requestFactory, config.value);
      r := Success(s);
    }

    /**
      A new array holding the base parameters followed by `newParams`, in
      order; neither input is changed.
     */
    method BuildParams(newParams: array<string>) returns (r: array<string>)
      ensures r.Length == |baseParams| + newParams.Length
      ensures forall i :: 0 <= i < |baseParams| ==> r[i] == baseParams[i]
      ensures forall i :: 0 <= i < newParams.Length ==> r[|baseParams| + i] == newParams[i]
      ensures r != newParams
    {
      r := new string[|baseParams| + newParams.Length];
      forall k | 0 <= k < |baseParams| {
        r[k] := baseParams[k];
      }
      for i := 0 to newParams.Length
        invariant forall k :: 0 <= k < |baseParams| ==> r[k] == baseParams[k]
        invariant forall k :: 0 <= k < i ==> r[|baseParams| + k] == newParams[k]
      {
        r[|baseParams| + i] := newParams[i];
      }
    }

    /**
      What CallApi hands to the transport: the endpoint and field names
      unchanged, and the base parameters followed by the caller's arguments.
      The field names are never compared with the arguments, so any number
      of arguments is accepted; only a null argument array fails.
     */
    method CallApi(endpoint: string, requiredParams: seq<string>, args: array?<string>) returns (r: Result<TransportCall, Error>)
      ensures r.Success? <==> args != null
      ensures args == null ==> r == Failure(NullReferenceError)
      ensures args != null ==> r.value.endpoint == endpoint && r.value.requiredParams == requiredParams
      ensures args != null ==> r.value.params == baseParams + args[..]
    {
      if args == null {
        return Failure(NullReferenceError);
      }
      var built := BuildParams(args);
      assert built[..] == baseParams + args[..];
      r := Success(TransportCall(endpoint, requiredParams, built[..]));
    }

    /**
      One of the nine operation methods: the operation's endpoint and field
      names, with the built parameters, go to the transport.
     */
    method Call(op: Operation, args: array?<string>) returns (r: Result<TransportCall, Error>)
      ensures args == null ==> r == Failure(NullReferenceError)
      ensures args != null ==> r == Success(RequestFor(op, baseParams + args[..]))
    {
      r := CallApi(Spec(op).endpoint, Spec(op).requiredParams, args);
    }
  }

  /** Every request of a valid service starts with the credentials and "JSON". */
  lemma ValidRequestLayout(s: Service, op: Operation, args: seq<string>)
    requires s.Valid()
    ensures |RequestFor(op, s.baseParams + args).params| == 3 + |args|
    ensures RequestFor(op, s.baseParams + args).params[..3]
      == [s.config.username.value, s.config.password.value, ResponseFormat]
    ensures RequestFor(op, s.baseParams + args).params[3..] == args
  {
  }
}
