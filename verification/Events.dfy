/** Application events and interpreted socket input (src/types.rs, src/client.rs). */
module Events {
  import opened Types
  import opened Json

  datatype RecvMessage = RecvMessage(
    header: Header,
    messageId: string,
    messageSeq: nat,
    timestamp: int,
    channelId: string,
    channelType: nat,
    fromUid: string,
    payload: Json,
    clientMsgNo: Option<string>,
    setting: Option<Setting>,
    topic: Option<string>)

  datatype CustomEvent = CustomEvent(header: Option<Header>, id: string, eventType: string, timestamp: int, data: Json)

  datatype Event =
    | Connect(result: ConnectResult)
    | Disconnect(reason: DisconnectReason)
    | Message(message: RecvMessage)
    | SendAck(ack: SendResult)
    | Reconnecting(attempt: nat, delay: nat)
    | Custom(event: CustomEvent)
    | Failure(error: Error)

  /** One item read from the socket in a session, after parsing and decoding. */
  datatype Inbound =
    | Malformed(error: Error)
    | Reply(id: Id, pong: Result<()>, ack: Result<SendResult>)
    | Delivery(message: RecvMessage)
    | Notice(event: CustomEvent)
    | Bye(code: int)
    | PongNote
    | Unknown
    | SocketPing
    | SocketPong
    | Gone

  function ReceiptOf(m: RecvMessage): Receipt {
    Receipt(m.header, m.messageId, m.messageSeq)
  }
}
