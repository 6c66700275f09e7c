/** From a frame to what the session loop acts on: parsing, notifications and their decoding (src/protocol.rs, src/client.rs). */
module Dispatch {
  import opened Types
  import opened Json
  import opened Aliases
  import opened Protocol
  import opened Events
  import Worker

  /** Library decoding: JSON text, and Base64 text holding JSON. */
  datatype Codec = Codec(text: string -> Option<Json>, packed: string -> Option<Json>)

  datatype Frame = TextFrame(text: string) | BinaryFrame | PingFrame | PongFrame | EndOfStream

  // ---- Derived decoding ----

  /** A struct member: by name in an object, by position in an array. */
  function Member(j: Json, name: string, position: nat): Option<Json> {
    match j
    case Obj(_) => Get(j, name)
    case Arr(items) => Protocol.At(items, position)
    case _ => None
  }

  predicate Shaped(j: Json, members: nat) {
    j.Obj? || (j.Arr? && |j.items| <= members)
  }

  function Required<T>(member: Option<Json>, read: Json -> Option<T>): Option<T> {
    if member.Some? then read(member.value) else None
  }

  function Defaulted<T>(member: Option<Json>, read: Json -> Option<T>, default: T): Option<T> {
    if member.Some? then read(member.value) else Some(default)
  }

  /** An optional member may be absent or null. */
  function Optional<T>(member: Option<Json>, read: Json -> Option<T>): Option<Option<T>> {
    if member.None? || member.value.Null? then Some(None)
    else if read(member.value).Some? then Some(read(member.value)) else None
  }

  function Any(j: Json): Option<Json> {
    Some(j)
  }

  const PLAIN_HEADER: Header := Header(false, false, false, false)

  function HeaderFrom(noPersist: Option<Json>, redDot: Option<Json>, syncOnce: Option<Json>, dup: Option<Json>): Option<Header> {
    var n :- Defaulted(noPersist, AsBool, false);
    var r :- Defaulted(redDot, AsBool, false);
    var s :- Defaulted(syncOnce, AsBool, false);
    var d :- Defaulted(dup, AsBool, false);
    Some(Header(n, r, s, d))
  }

  function ReadHeader(j: Json): Option<Header> {
    if !Shaped(j, 4) then None
    else HeaderFrom(Member(j, "noPersist", 0), Member(j, "redDot", 1), Member(j, "syncOnce", 2), Member(j, "dup", 3))
  }

  function ReadSetting(j: Json): Option<Setting> {
    if !Shaped(j, 4) then None
    else
      var r :- Defaulted(Member(j, "receipt", 0), AsBool, false);
      var s :- Defaulted(Member(j, "signal", 1), AsBool, false);
      var m :- Defaulted(Member(j, "stream", 2), AsBool, false);
      var t :- Defaulted(Member(j, "topic", 3), AsBool, false);
      Some(Setting(r, s, m, t))
  }

  /** The members of a message that have two spellings. */
  datatype Spelled = Spelled(
    id: Option<Json>, sequence: Option<Json>, channel: Option<Json>, kind: Option<Json>, sender: Option<Json>, number: Option<Json>)

  /** The members of a message that have one. */
  datatype Single = Single(
    timestamp: Option<Json>, payload: Option<Json>, setting: Option<Json>, topic: Option<Json>)

  function MessageFrom(header: Header, spelled: Spelled, single: Single): Option<RecvMessage> {
    var id :- Required(spelled.id, AsStr);
    var sequence :- Required(spelled.sequence, AsU64);
    var timestamp :- Required(single.timestamp, AsI64);
    var channel :- Required(spelled.channel, AsStr);
    var kind :- Required(spelled.kind, AsU8);
    var sender :- Required(spelled.sender, AsStr);
    var payload :- Required(single.payload, Any);
    var number :- Optional(spelled.number, AsStr);
    var setting :- Optional(single.setting, ReadSetting);
    var topic :- Optional(single.topic, AsStr);
    Some(RecvMessage(header, id, sequence, timestamp, channel, kind, sender, payload, number, setting, topic))
  }

  /** serde's derived decoding of RecvMessage. */
  function ReadRecv(j: Json): Option<RecvMessage> {
    if !Shaped(j, 11) then None
    else
      var header :- Defaulted(Member(j, HEADER, 0), ReadHeader, PLAIN_HEADER);
      MessageFrom(
        header,
        Spelled(Member(j, MESSAGE_ID, 1), Member(j, "messageSeq", 2), Member(j, "channelId", 4), Member(j, "channelType", 5),
                Member(j, "fromUid", 6), Member(j, "clientMsgNo", 8)),
        Single(Member(j, "timestamp", 3), Member(j, PAYLOAD, 7), Member(j, "setting", 9), Member(j, "topic", 10)))
  }

  /** serde's derived decoding of CustomEvent. */
  function ReadEvent(j: Json): Option<CustomEvent> {
    if !Shaped(j, 5) then None
    else
      var header :- Optional(Member(j, HEADER, 0), ReadHeader);
      var id :- Required(Member(j, "id", 1), AsStr);
      var kind :- Required(Member(j, "type", 2), AsStr);
      var timestamp :- Required(Member(j, "timestamp", 3), AsI64);
      var data :- Required(Member(j, DATA, 4), Any);
      Some(CustomEvent(header, id, kind, timestamp, data))
  }

  // ---- recv, event and parse ----

  /** Text that the codec understands is replaced by what it holds. */
  function Unpacked(content: Json, codec: string -> Option<Json>): Json {
    if content.Str? then codec(content.s).GetOr(content) else content
  }

  function Recv(codec: Codec, params: Json): Result<RecvMessage> {
    match ReadRecv(Normal(params, TABLE))
    case None => Err(BAD_FIELDS)
    case Some(m) =>
      if m.messageId == "" || m.channelId == "" then Err(Error.Protocol("missing message identity"))
      else Ok(m.(payload := Unpacked(m.payload, codec.packed)))
  }

  function EventOf(codec: Codec, params: Json): Result<CustomEvent> {
    if Get(params, DATA).None? then Err(Error.Protocol("missing event data"))
    else
      match ReadEvent(Normal(params, TABLE))
      case None => Err(BAD_FIELDS)
      case Some(e) =>
        if e.id == "" || e.eventType == "" then Err(Error.Protocol("missing event identity"))
        else Ok(e.(data := Unpacked(e.data, codec.text)))
  }

  function Parse(codec: Codec, text: string): Result<Json> {
    match codec.text(text)
    case None => Err(Error.Protocol("invalid JSON"))
    case Some(value) =>
      if !value.Obj? || (Get(value, "jsonrpc").Some? && Get(value, "jsonrpc").value != Str("2.0")) then
        Err(Error.Protocol("expected JSON-RPC 2.0 object"))
      else Ok(value)
  }

  // ---- The dispatch of the session loop ----

  function Notified(codec: Codec, kind: string, params: Json): Inbound {
    match kind
    case "recv" =>
      (match Recv(codec, params)
       case Ok(message) => Delivery(message)
       case Err(e) => Malformed(e))
    case "event" =>
      (match EventOf(codec, params)
       case Ok(event) => Notice(event)
       case Err(e) => Malformed(e))
    case "disconnect" =>
      var code := GetEither(params, "reasonCode", "reason_code");
      Bye(if code.Some? then AsI64(code.value).GetOr(0) else 0)
    case "pong" => PongNote
    case _ => Unknown
  }

  function TextMember(value: Json, key: string): Option<string> {
    var member :- Get(value, key);
    AsStr(member)
  }

  function Interpret(codec: Codec, frame: Frame): Inbound {
    match frame
    case TextFrame(text) =>
      (match Parse(codec, text)
       case Err(e) => Malformed(e)
       case Ok(value) =>
         match (TextMember(value, "id"), TextMember(value, "method"))
         case (Some(id), _) =>
           Reply(id, match Response(value) case Ok(_) => Ok(()) case Err(e) => Err(e), SendReply(value))
         case (None, Some(m)) => Notified(codec, m, Get(value, "params").GetOr(Null))
         case _ => Malformed(Error.Protocol("missing response ID or method")))
    case BinaryFrame => Malformed(Error.Protocol("expected a text message"))
    case PingFrame => SocketPing
    case PongFrame => SocketPong
    case EndOfStream => Gone
  }

  /** Whatever the peer sends, the worker's step relation covers it: a bad frame is a protocol error, never more. */
  lemma InterpretPlausible(codec: Codec, frame: Frame)
    ensures Worker.Plausible(Interpret(codec, frame))
  {
  }

  // ---- Decoding by direct lookup ----

  /** A raw header's flags, each under its camelCase name or else its snake_case one. */
  function DirectHeader(h: Json): Option<Header> {
    if h.Obj? then
      HeaderFrom(GetEither(h, "noPersist", "no_persist"), GetEither(h, "redDot", "red_dot"),
                 GetEither(h, "syncOnce", "sync_once"), Get(h, "dup"))
    else ReadHeader(h)
  }

  /** The same message read off the raw object, with no rewriting. */
  function DirectRecv(j: Json): Option<RecvMessage>
    requires j.Obj?
  {
    var header :- Defaulted(Get(j, HEADER), DirectHeader, PLAIN_HEADER);
    MessageFrom(
      header,
      Spelled(TextIds(GetEither(j, MESSAGE_ID, "message_id")), GetEither(j, "messageSeq", "message_seq"),
              GetEither(j, "channelId", "channel_id"), GetEither(j, "channelType", "channel_type"),
              GetEither(j, "fromUid", "from_uid"), GetEither(j, "clientMsgNo", "client_msg_no")),
      Single(Get(j, "timestamp"), Get(j, PAYLOAD), Get(j, "setting"), Get(j, "topic")))
  }

  /** Every alias of the table, by its index: only the message ID is also turned into text. */
  lemma SpellingAt(j: Json, i: nat)
    requires j.Obj? && i < |TABLE|
    ensures var found := GetEither(j, TABLE[i].camel, TABLE[i].snake);
            Get(Normal(j, TABLE), TABLE[i].camel) == if i == 5 then TextIds(found) else found
  {
    hide Normal, TABLE, Fit, Mark;
    TableFit();
    OnlyMessageId(i);
    AliasValue(j, TABLE, TABLE[i]);
  }

  lemma OnlyMessageId(i: nat)
    requires i < |TABLE|
    ensures TABLE[i].camel == MESSAGE_ID <==> i == 5
  {
    TableMarks(i);
    PlainMarks();
    assert TABLE[5].camel == MESSAGE_ID;
  }

  lemma PlainAt(j: Json, k: string, mark: int)
    requires j.Obj? && Mark(k) == mark && k != HEADER && k != MESSAGE_ID
    requires mark !in SNAKE_MARKS && mark !in CAMEL_MARKS
    ensures Get(Normal(j, TABLE), k) == Get(j, k)
  {
    TableFit();
    MergeAllResolves(j.fields, TABLE);
    forall a | a in TABLE ensures a.snake != k && a.camel != k {
      var i :| 0 <= i < |TABLE| && TABLE[i] == a;
      TableMarks(i);
    }
    assert !Aliases.Named(TABLE, k);
  }

  /** The members of a message with a single spelling. */
  lemma MessagePlain(j: Json)
    requires j.Obj?
    ensures Get(Normal(j, TABLE), "timestamp") == Get(j, "timestamp") && Get(Normal(j, TABLE), PAYLOAD) == Get(j, PAYLOAD)
    ensures Get(Normal(j, TABLE), "setting") == Get(j, "setting") && Get(Normal(j, TABLE), "topic") == Get(j, "topic")
  {
    hide Normal, Get;
    PlainAt(j, "timestamp", 9_116_112);
    PlainAt(j, PAYLOAD, 7_112_100);
    PlainAt(j, "setting", 7_115_103);
    PlainAt(j, "topic", 5_116_099);
  }

  /** The members of an event with a single spelling. */
  lemma EventPlain(j: Json)
    requires j.Obj?
    ensures Get(Normal(j, TABLE), "id") == Get(j, "id") && Get(Normal(j, TABLE), "type") == Get(j, "type")
    ensures Get(Normal(j, TABLE), "timestamp") == Get(j, "timestamp") && Get(Normal(j, TABLE), DATA) == Get(j, DATA)
  {
    hide Normal, Get;
    PlainAt(j, "id", 2_105_100);
    PlainAt(j, "type", 4_116_101);
    PlainAt(j, "timestamp", 9_116_112);
    PlainAt(j, DATA, 4_100_097);
  }

  lemma HeaderAt(j: Json)
    requires j.Obj?
    ensures Normal(j, TABLE).Obj?
    ensures Get(Normal(j, TABLE), HEADER) == if HEADER in j.fields then Some(Normal(j.fields[HEADER], TABLE)) else None
  {
    TableFit();
    MergeAllResolves(j.fields, TABLE);
  }

  lemma HeaderDirect(h: Json)
    ensures ReadHeader(Normal(h, TABLE)) == DirectHeader(h)
  {
    if h.Obj? {
      FlagSpellings();
      SpellingAt(h, 11);
      SpellingAt(h, 12);
      SpellingAt(h, 13);
      PlainAt(h, "dup", 3_100_112);
    }
  }

  lemma FlagSpellings()
    ensures TABLE[11] == Alias("no_persist", "noPersist")
    ensures TABLE[12] == Alias("red_dot", "redDot")
    ensures TABLE[13] == Alias("sync_once", "syncOnce")
  {
  }

  lemma MessageSpellings()
    ensures |TABLE| == 14
    ensures TABLE[5] == Alias("message_id", MESSAGE_ID)
    ensures TABLE[6] == Alias("message_seq", "messageSeq")
    ensures TABLE[7] == Alias("channel_id", "channelId")
    ensures TABLE[8] == Alias("channel_type", "channelType")
    ensures TABLE[9] == Alias("from_uid", "fromUid")
    ensures TABLE[10] == Alias("client_msg_no", "clientMsgNo")
  {
  }

  /** Rewriting then decoding a message is reading it directly under either spelling: nothing is lost or mixed up. */
  lemma RecvReadsDirectly(j: Json)
    requires j.Obj?
    ensures ReadRecv(Normal(j, TABLE)) == DirectRecv(j)
  {
    hide Normal, MessageFrom, ReadHeader, DirectHeader, TextIds, GetEither, Mark, TABLE, SNAKE_MARKS, CAMEL_MARKS;
    MessageSpellings();
    SpellingAt(j, 5);
    SpellingAt(j, 6);
    SpellingAt(j, 7);
    SpellingAt(j, 8);
    SpellingAt(j, 9);
    SpellingAt(j, 10);
    MessagePlain(j);
    HeaderAt(j);
    if HEADER in j.fields {
      HeaderDirect(j.fields[HEADER]);
    }
  }

  /** A custom event read off the raw object: only its header has two spellings. */
  function DirectEvent(j: Json): Option<CustomEvent>
    requires j.Obj?
  {
    var header :- Optional(Get(j, HEADER), DirectHeader);
    var id :- Required(Get(j, "id"), AsStr);
    var kind :- Required(Get(j, "type"), AsStr);
    var timestamp :- Required(Get(j, "timestamp"), AsI64);
    var data :- Required(Get(j, DATA), Any);
    Some(CustomEvent(header, id, kind, timestamp, data))
  }

  lemma EventReadsDirectly(j: Json)
    requires j.Obj?
    ensures ReadEvent(Normal(j, TABLE)) == DirectEvent(j)
  {
    hide Normal, ReadHeader, DirectHeader, Mark, TABLE, SNAKE_MARKS, CAMEL_MARKS;
    EventPlain(j);
    HeaderAt(j);
    if HEADER in j.fields {
      NullStays(j.fields[HEADER]);
      HeaderDirect(j.fields[HEADER]);
    }
  }

  lemma NullStays(j: Json)
    ensures Normal(j, TABLE).Null? <==> j.Null?
  {
  }

  // ---- Positional messages ----

  /** A flag whose snake_case spelling alone is there, and says otherwise than the default. */
  predicate HiddenFlag(h: Json, camel: string, snake: string) {
    Get(h, camel).None? && Get(h, snake).Some? && Get(h, snake).value != Bool(false)
  }

  predicate HidesFlag(h: Json) {
    HiddenFlag(h, "noPersist", "no_persist") || HiddenFlag(h, "redDot", "red_dot") || HiddenFlag(h, "syncOnce", "sync_once")
  }

  /** A header decoded as it stands agrees with the direct reading unless it is readable and hides a flag. */
  lemma HeaderAgreesIff(h: Json)
    ensures ReadHeader(h) == DirectHeader(h) <==> ReadHeader(h).None? || !HidesFlag(h)
  {
  }

  /** The members of a positional message, its header read under either spelling. */
  function DirectPositional(items: seq<Json>): Option<RecvMessage> {
    if |items| > 11 then None
    else
      var header :- Defaulted(Protocol.At(items, 0), DirectHeader, PLAIN_HEADER);
      PositionalRest(items, header)
  }

  function PositionalRest(items: seq<Json>, header: Header): Option<RecvMessage> {
    MessageFrom(
      header,
      Spelled(Protocol.At(items, 1), Protocol.At(items, 2), Protocol.At(items, 4), Protocol.At(items, 5), Protocol.At(items, 6),
              Protocol.At(items, 8)),
      Single(Protocol.At(items, 3), Protocol.At(items, 7), Protocol.At(items, 9), Protocol.At(items, 10)))
  }

  /** The direct reading of any `params`, as an object, by position or neither. */
  function DirectParams(j: Json): Option<RecvMessage> {
    match j
    case Obj(_) => DirectRecv(j)
    case Arr(items) => DirectPositional(items)
    case _ => None
  }

  /** `params` decodes as a positional message whose header hides a flag. */
  predicate LosesFlag(params: Json) {
    params.Arr? && params.items != [] && HidesFlag(params.items[0]) && ReadRecv(params).Some?
  }

  lemma RestIgnoresHeader(items: seq<Json>, a: Header, b: Header)
    ensures PositionalRest(items, a).Some? <==> PositionalRest(items, b).Some?
    ensures PositionalRest(items, a).Some? ==>
              PositionalRest(items, a).value.header == a && PositionalRest(items, b).value.header == b
  {
  }

  /** The source's decoding reads every message directly, except exactly the positional ones that lose a flag. */
  lemma RecvReadsDirectlyIff(j: Json)
    ensures ReadRecv(Normal(j, TABLE)) == DirectParams(j) <==> !LosesFlag(j)
  {
    hide MessageFrom, HeaderFrom, ReadHeader, DirectHeader, HidesFlag, DirectRecv, PositionalRest;
    match j
    case Obj(_) => RecvReadsDirectly(j);
    case Arr(items) => PositionalReadsDirectlyIff(items);
    case _ =>
  }

  lemma PositionalReadsDirectlyIff(items: seq<Json>)
    ensures ReadRecv(Arr(items)) == DirectPositional(items) <==> !LosesFlag(Arr(items))
  {
    hide MessageFrom, HeaderFrom, ReadHeader, DirectHeader, HidesFlag;
    if items != [] && |items| <= 11 {
      var h := items[0];
      HeaderAgreesIff(h);
      assert ReadRecv(Arr(items)) == if ReadHeader(h).Some? then PositionalRest(items, ReadHeader(h).value) else None;
      assert DirectPositional(items) == if DirectHeader(h).Some? then PositionalRest(items, DirectHeader(h).value) else None;
      if ReadHeader(h).Some? {
        RestIgnoresHeader(items, ReadHeader(h).value, DirectHeader(h).GetOr(PLAIN_HEADER));
      }
    }
  }

  const FLAGGED: Json := Obj(map["no_persist" := Bool(true)])
  const POSITIONAL: seq<Json> := [FLAGGED, Str("m"), Int(1), Int(0), Str("c"), Int(1), Str("u"), Null]

  /** The exception is real: a positional message that asks not to be persisted is received as if it had not. */
  lemma PositionalFlagLost()
    ensures LosesFlag(Arr(POSITIONAL))
    ensures ReadRecv(Normal(Arr(POSITIONAL), TABLE)).Some? && !ReadRecv(Normal(Arr(POSITIONAL), TABLE)).value.header.noPersist
    ensures DirectParams(Arr(POSITIONAL)).Some? && DirectParams(Arr(POSITIONAL)).value.header.noPersist
  {
    FlagNames();
    assert ReadHeader(FLAGGED) == Some(PLAIN_HEADER);
    assert DirectHeader(FLAGGED) == Some(PLAIN_HEADER.(noPersist := true));
    assert Normal(Arr(POSITIONAL), TABLE) == Arr(POSITIONAL);
    assert PositionalRest(POSITIONAL, PLAIN_HEADER).Some?;
    RestIgnoresHeader(POSITIONAL, PLAIN_HEADER, PLAIN_HEADER.(noPersist := true));
  }

  lemma FlagNames()
    ensures "no_persist" !in {"noPersist", "redDot", "red_dot", "syncOnce", "sync_once", "dup"}
  {
    assert |"no_persist"| == 10 && |"noPersist"| == 9 && |"red_dot"| == 7 && |"sync_once"| == 9 && |"redDot"| == 6
           && |"syncOnce"| == 8 && |"dup"| == 3;
  }
}
