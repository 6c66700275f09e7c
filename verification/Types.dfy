/** The public vocabulary of the SDK: results, errors, events and options (src/types.rs). */
module Types {

  datatype Option<+T> = None | Some(value: T) {
    function GetOr(default: T): T {
      if Some? then value else default
    }

    predicate IsFailure() {
      None?
    }

    function PropagateFailure<U>(): Option<U>
      requires None?
    {
      None
    }

    function Extract(): T
      requires Some?
    {
      value
    }
  }

  datatype Result<+T> = Ok(value: T) | Err(error: Error)

  /** Request and call identities (UUID text in the source); freshness is a guard of the step that draws one. */
  type Id = string

  datatype Error =
    | InvalidInput
    | NotConnected
    | Disconnected
    | Destroyed
    | Backpressure
    | Timeout
    | Transport
    | Protocol(why: string)
    | Server(code: int)
    | ReconnectExhausted
    | MessageTooLarge
    | RuntimeUnavailable

  datatype DisconnectReason = Manual | TransportLost | HeartbeatTimeout | ByServer(code: int)

  datatype ConnectResult = ConnectResult(
    reasonCode: int,
    serverKey: string,
    salt: string,
    timeDiff: int,
    serverVersion: int,
    nodeId: int)

  datatype SendResult = SendResult(messageId: string, messageSeq: int, reasonCode: int)

  datatype Header = Header(noPersist: bool, redDot: bool, syncOnce: bool, dup: bool)

  datatype Setting = Setting(receipt: bool, signal: bool, streamed: bool, topic: bool)

  /** What the automatic RECVACK repeats of a received message. */
  datatype Receipt = Receipt(header: Header, messageId: string, messageSeq: nat)

  /** Durations are in nanoseconds, as std::time::Duration counts them. */
  datatype Options = Options(
    connectTimeout: nat,
    requestTimeout: nat,
    writeTimeout: nat,
    pingInterval: nat,
    pongTimeout: nat,
    maxReconnectAttempts: nat,
    reconnectDelay: nat,
    maxReconnectDelay: nat,
    maxInFlight: nat,
    eventCapacity: nat,
    maxMessageSize: nat,
    certificateSizes: seq<nat>)

  const NANOS_PER_MILLI: nat := 1_000_000
  const NANOS_PER_DAY: nat := 86_400_000_000_000

  predicate InDay(d: nat) {
    0 < d <= NANOS_PER_DAY
  }

  /** `Options::validate` as the set of options it accepts. */
  predicate Valid(o: Options) {
    && |o.certificateSizes| <= 16
    && (forall i :: 0 <= i < |o.certificateSizes| ==> 0 < o.certificateSizes[i] <= 65536)
    && InDay(o.connectTimeout) && InDay(o.requestTimeout) && InDay(o.writeTimeout)
    && InDay(o.pingInterval) && InDay(o.pongTimeout)
    && InDay(o.reconnectDelay) && InDay(o.maxReconnectDelay)
    && o.reconnectDelay <= o.maxReconnectDelay
    && o.maxReconnectAttempts <= 100
    && 1 <= o.maxInFlight <= 65536
    && 1 <= o.eventCapacity <= 65536
    && 256 <= o.maxMessageSize <= 64 * 1024 * 1024
  }
}
