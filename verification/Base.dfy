/** Errors, results and the retry deadline that every admin call of the client shares. */
module Base {

  datatype Option<+T> = None | Some(value: T)

  datatype Result<+T, +E> = Ok(value: T) | Err(error: E)

  /** How a peer refused authentication. */
  datatype Rejection = TlsRejected | UnsupportedMechanism | IllegalSaslState | SaslFailed

  /** The failures of one connection. `OtherClient` stands for the variants that no routing
      decision looks at (configuration, argument, codec and telemetry errors). */
  datatype ClientError =
    | ConnectRefused
    | TlsBroken
    | SaslBroken
    | Authentication(rejection: Rejection)
    | Disconnected
    | Timeout
    | Io
    | IncompatibleVersion
    | Server(serverCode: int)
    | OtherClient

  datatype AdminError =
    | Connect(tried: nat, source: Option<AdminError>)
    | Broker(code: int, message: Option<string>)
    | Transport(client: ClientError)
    | Protocol
    | InvalidArgument

  /** Why the client itself made an error up, in place of the text it formats. */
  datatype Note =
    | TimedOut(attempts: nat)
    | Because(cause: AdminError)
    | NotAnswered
    | Unsupported(needed: int, highest: int)
    | IllegalDir(dir: string)
    | Malformed

  datatype Message = FromBroker(text: Option<string>) | Own(note: Note)

  /** A Kafka error of one group, partition, replica or resource. The name of the source's record
      is a function of the code and is not kept. */
  datatype KafkaError = KafkaError(code: int, message: Message)

  const UNKNOWN_SERVER_ERROR := -1
  const REQUEST_TIMED_OUT := 7
  const NETWORK_EXCEPTION := 13
  const COORDINATOR_LOAD_IN_PROGRESS := 14
  const COORDINATOR_NOT_AVAILABLE := 15
  const NOT_COORDINATOR := 16
  const UNSUPPORTED_SASL_MECHANISM := 33
  const ILLEGAL_SASL_STATE := 34
  const UNSUPPORTED_VERSION := 35
  const INVALID_CONFIG := 40
  const NOT_CONTROLLER := 41
  const KAFKA_STORAGE_ERROR := 56
  const SASL_AUTHENTICATION_FAILED := 58
  const GROUP_ID_NOT_FOUND := 69

  /** A failed or lost connection with no verdict from the peer. */
  predicate IsConnectionFailure(error: AdminError) {
    error.Transport? &&
    (error.client.ConnectRefused? || error.client.TlsBroken? || error.client.SaslBroken? ||
     error.client.Timeout? || error.client.Disconnected? || error.client.Io?)
  }

  predicate IsAuthenticationFailure(error: AdminError) {
    error.Transport? && error.client.Authentication?
  }

  /** The transport errors after which a connection is opened again. */
  predicate IsRetriableTransport(error: ClientError) {
    error.Timeout? || error.Disconnected? || error.Io?
  }

  /** The Kafka error of a failed group call. */
  function GroupsKafkaError(error: AdminError): KafkaError {
    match error
    case Broker(code, message) => KafkaError(code, FromBroker(message))
    case Transport(IncompatibleVersion) => KafkaError(UNSUPPORTED_VERSION, Own(Because(error)))
    case Transport(Timeout) => KafkaError(REQUEST_TIMED_OUT, Own(Because(error)))
    case Transport(ConnectRefused) => KafkaError(NETWORK_EXCEPTION, Own(Because(error)))
    case Transport(Disconnected) => KafkaError(NETWORK_EXCEPTION, Own(Because(error)))
    case Transport(Io) => KafkaError(NETWORK_EXCEPTION, Own(Because(error)))
    case Transport(Authentication(rejection)) =>
      KafkaError(
        match rejection
        case TlsRejected => INVALID_CONFIG
        case UnsupportedMechanism => UNSUPPORTED_SASL_MECHANISM
        case IllegalSaslState => ILLEGAL_SASL_STATE
        case SaslFailed => SASL_AUTHENTICATION_FAILED,
        Own(Because(error)))
    case _ => KafkaError(UNKNOWN_SERVER_ERROR, Own(Because(error)))
  }

  /** The failures that are a verdict of the peer, or of the client itself, are no connection failures. */
  lemma VerdictsAreNoConnectionFailures(error: AdminError)
    ensures !IsConnectionFailure(error) <==>
            error.Connect? || error.Broker? || error.Protocol? || error.InvalidArgument? ||
            error.client.Authentication? || error.client.IncompatibleVersion? || error.client.Server? ||
            error.client.OtherClient?
  {
  }

  /** Which code a failed call has when no broker gave one, and that the failure itself is kept. */
  lemma FailedCallsByCode(error: AdminError)
    requires !error.Broker?
    ensures GroupsKafkaError(error).message == Own(Because(error))
    ensures GroupsKafkaError(error).code == 35 <==> error == Transport(IncompatibleVersion)
    ensures GroupsKafkaError(error).code == 7 <==> error == Transport(Timeout)
    ensures GroupsKafkaError(error).code == 13 <==>
            error == Transport(ConnectRefused) || error == Transport(Disconnected) || error == Transport(Io)
    ensures GroupsKafkaError(error).code == 40 <==> error == Transport(Authentication(TlsRejected))
    ensures GroupsKafkaError(error).code == 33 <==> error == Transport(Authentication(UnsupportedMechanism))
    ensures GroupsKafkaError(error).code == 34 <==> error == Transport(Authentication(IllegalSaslState))
    ensures GroupsKafkaError(error).code == 58 <==> error == Transport(Authentication(SaslFailed))
    ensures GroupsKafkaError(error).code in {-1, 7, 13, 33, 34, 35, 40, 58}
  {
  }

  const U32_MAX := 0xFFFF_FFFF

  /** The error of a call that is unresolved when it stops. Its attempt counter saturates. */
  function TimeoutError(attempts: nat): KafkaError {
    KafkaError(REQUEST_TIMED_OUT, Own(TimedOut(if attempts <= U32_MAX then attempts else U32_MAX)))
  }

  /** The deadline and retry count of a running call. Instants are milliseconds. */
  datatype RetryDeadline = RetryDeadline(deadline: int, maxRetries: nat, retries: nat) {

    predicate Expired(now: int) {
      now >= deadline
    }

    /** The call must stop instead of retrying. */
    predicate Exhausted(now: int) {
      Expired(now) || retries >= maxRetries
    }

    /** The state after one backoff. */
    function AfterBackoff(): RetryDeadline {
      this.(retries := retries + 1)
    }
  }

  predicate NoDuplicates<T(==)>(q: seq<T>) {
    forall i, j | 0 <= i < j < |q| :: q[i] != q[j]
  }

  function Elements<T>(q: seq<T>): set<T> {
    set x | x in q
  }

  /** The elements of `q` that `p` takes, in their order. */
  function Filter<T(!new)>(p: T -> bool, q: seq<T>): (r: seq<T>)
    ensures forall x :: x in r <==> x in q && p(x)
    ensures |r| <= |q|
  {
    if q == [] then []
    else
      var rest := Filter(p, q[..|q| - 1]);
      if p(q[|q| - 1]) then rest + [q[|q| - 1]] else rest
  }

  /** The first element that `p` takes. */
  function First<T>(p: T -> bool, q: seq<T>): Option<T> {
    if q == [] then None else if p(q[0]) then Some(q[0]) else First(p, q[1..])
  }

  lemma {:induction false} FilterKeepsDistinct<T(!new)>(p: T -> bool, q: seq<T>)
    requires NoDuplicates(q)
    ensures NoDuplicates(Filter(p, q))
  {
    if q != [] {
      FilterKeepsDistinct(p, q[..|q| - 1]);
    }
  }

  lemma JoinKeepsDistinct<T>(p: seq<T>, q: seq<T>)
    requires NoDuplicates(p) && NoDuplicates(q) && forall x | x in p :: x !in q
    ensures NoDuplicates(p + q)
  {
    forall i, j | 0 <= i < j < |p + q| ensures (p + q)[i] != (p + q)[j] {
      if i < |p| <= j {
        assert p[i] in p && q[j - |p|] in q;
      }
    }
  }
}
