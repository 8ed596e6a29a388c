/** How a failed session fetch is told apart: the exception classes the
    setup flow tests with `instanceof`, the texts (as string resource ids)
    it shows, and the classification of a failure into the categories the
    failure tables are keyed on. */
module Failures {
  import opened Optional

  /** The exception classes the setup flow distinguishes. They are disjoint:
      no class the flow tests for is a subclass of another. */
  datatype ThrowableClass =
    | UnauthorizedException
    | UnknownHostException
    | InvalidSessionResourceException
    | EndpointNotFoundException
    | ConnectException
    | SocketTimeoutException
    | SSLHandshakeException
    | SSLPeerUnverifiedException
    | InterruptedException
    | OtherException(simpleName: string)

  /** A Java throwable: its class and its (nullable) message. */
  datatype Throwable = Throwable(kind: ThrowableClass, message: Option<string>)

  /** The texts the setup flow posts, by string resource id; `UnknownHost`
      and `UnableToFetchSession` carry their format argument, and
      `UnableToSaveAccounts` the quantity of the plural it is taken from. */
  datatype Message =
    | NoNetworkConnection
    | EnterAnEmailAddress
    | EnterAValidEmailAddress
    | EnterAPassword
    | WrongPassword
    | EnterASecureUrl
    | EnterAValidUrl
    | UnknownHost(host: string)
    | InvalidSessionResource
    | EndpointNotFound
    | UnableToConnect
    | TimeoutReached
    | UnableToEstablishSecureConnection
    | UnableToVerifyServiceIdentity
    | UnableToFetchSession(detail: string)
    | UnableToSaveAccounts(quantity: nat)

  /** The closed set of failure categories: the authorization was rejected,
      the session endpoint could not be used, the host name did not resolve,
      or anything else. */
  datatype Category = Unauthorized | EndpointUnreachable | UnresolvedHost | Unknown

  /** The reference classification of a failure, one category per class. */
  function Classify(t: Throwable): Category
  {
    match t.kind
    case UnauthorizedException => Unauthorized
    case UnknownHostException => UnresolvedHost
    case InvalidSessionResourceException => EndpointUnreachable
    case EndpointNotFoundException => EndpointUnreachable
    case ConnectException => EndpointUnreachable
    case SocketTimeoutException => EndpointUnreachable
    case SSLHandshakeException => EndpointUnreachable
    case SSLPeerUnverifiedException => EndpointUnreachable
    case InterruptedException => Unknown
    case OtherException(_) => Unknown
  }

  /** `isEndpointProblem`: the failure lies with the session endpoint, so
      the user is sent to (or kept at) the URL screen. */
  predicate IsEndpointProblem(t: Throwable)
    ensures IsEndpointProblem(t) <==> Classify(t) == EndpointUnreachable
  {
    || t.kind.InvalidSessionResourceException?
    || t.kind.EndpointNotFoundException?
    || t.kind.ConnectException?
    || t.kind.SocketTimeoutException?
    || t.kind.SSLHandshakeException?
    || t.kind.SSLPeerUnverifiedException?
  }

  /** The six texts that explain an endpoint problem. */
  predicate IsEndpointMessage(m: Message)
  {
    || m == InvalidSessionResource
    || m == EndpointNotFound
    || m == UnableToConnect
    || m == TimeoutReached
    || m == UnableToEstablishSecureConnection
    || m == UnableToVerifyServiceIdentity
  }

  /** `causeToString`: the text explaining an endpoint problem. The source
      throws IllegalArgumentException for any other cause; no caller passes
      one, so that is the precondition. */
  function CauseToString(t: Throwable): (m: Message)
    requires IsEndpointProblem(t)
    ensures IsEndpointMessage(m)
  {
    match t.kind
    case InvalidSessionResourceException => InvalidSessionResource
    case EndpointNotFoundException => EndpointNotFound
    case ConnectException => UnableToConnect
    case SocketTimeoutException => TimeoutReached
    case SSLHandshakeException => UnableToEstablishSecureConnection
    case SSLPeerUnverifiedException => UnableToVerifyServiceIdentity
  }

  /** Every endpoint problem gets its own text: two endpoint problems are
      explained alike exactly when they are of the same class. */
  lemma CauseToStringDistinguishesKinds(a: Throwable, b: Throwable)
    requires IsEndpointProblem(a) && IsEndpointProblem(b)
    ensures CauseToString(a) == CauseToString(b) <==> a.kind == b.kind
  {
  }

  /** `Class.getSimpleName` of each class. */
  function SimpleName(k: ThrowableClass): string
  {
    match k
    case UnauthorizedException => "UnauthorizedException"
    case UnknownHostException => "UnknownHostException"
    case InvalidSessionResourceException => "InvalidSessionResourceException"
    case EndpointNotFoundException => "EndpointNotFoundException"
    case ConnectException => "ConnectException"
    case SocketTimeoutException => "SocketTimeoutException"
    case SSLHandshakeException => "SSLHandshakeException"
    case SSLPeerUnverifiedException => "SSLPeerUnverifiedException"
    case InterruptedException => "InterruptedException"
    case OtherException(name) => name
  }

  /** The warning `reportUnableToFetchSession` posts for a failure: none for
      an interruption, otherwise "unable to fetch session" with the
      throwable's message, or its class's simple name when it has none. */
  function FetchFailureWarning(t: Throwable): (w: Option<Message>)
    ensures w.None? <==> t.kind.InterruptedException?
    ensures w.Some? && t.message.Some? ==> w.value == UnableToFetchSession(t.message.value)
    ensures w.Some? && t.message.None? ==> w.value == UnableToFetchSession(SimpleName(t.kind))
  {
    if t.kind.InterruptedException? then None
    else
      var detail := if t.message.None? then SimpleName(t.kind) else t.message.value;
      Some(UnableToFetchSession(detail))
  }
}
