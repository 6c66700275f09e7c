/**
 * What a JSON-RPC message says, spelled out on the raw tree: each member of a decoded value by the key it is read
 * from. The decoders of Protocol and Dispatch are proved to accept exactly what these relations describe.
 */
module Readings {
  import opened Types
  import opened Json
  import opened Aliases
  import opened Protocol
  import opened Events
  import opened Dispatch

  // ---- Members ----

  /** The member under `first`, or else the one under `second`. */
  function Found(m: Fields, first: string, second: string): Option<Json> {
    if first in m then Some(m[first]) else if second in m then Some(m[second]) else None
  }

  function One(m: Fields, key: string): Option<Json> {
    if key in m then Some(m[key]) else None
  }

  function Nth(items: seq<Json>, i: nat): Option<Json> {
    if i < |items| then Some(items[i]) else None
  }

  predicate IsText(j: Option<Json>, s: string) {
    j == Some(Str(s))
  }

  predicate IsNumber(j: Option<Json>, n: int, low: int, high: int) {
    j == Some(Int(n)) && low <= n <= high
  }

  /** An absent flag is off. */
  predicate IsFlag(j: Option<Json>, b: bool) {
    j == Some(Bool(b)) || (j == None && !b)
  }

  predicate IsOptionalText(j: Option<Json>, s: Option<string>) {
    match s
    case None => j == None || j == Some(Null)
    case Some(t) => j == Some(Str(t))
  }

  /** The decimal numeral of `n`: digits only, no leading zero, and its value. */
  function Numeral(s: string): int {
    if s == "" then 0 else Numeral(s[..|s| - 1]) * 10 + (s[|s| - 1] as int - '0' as int)
  }

  predicate Denotes(s: string, n: int) {
    && s != "" && (forall i :: 0 <= i < |s| ==> '0' <= s[i] <= '9')
    && (|s| > 1 ==> s[0] != '0')
    && Numeral(s) == n
  }

  lemma {:induction false} DecimalDenotes(n: nat)
    ensures Denotes(Decimal(n), n)
    ensures n > 0 ==> Decimal(n)[0] != '0'
  {
    var last := [('0' as int + n % 10) as char];
    if n < 10 {
      assert Decimal(n) == last;
      assert last[..0] == "";
    } else {
      DecimalDenotes(n / 10);
      var front := Decimal(n / 10);
      assert Decimal(n) == front + last;
      assert (front + last)[..|front|] == front;
    }
  }

  /** A numeral has one value, and a value one numeral. */
  lemma {:induction false} DenotesOne(s: string, t: string, n: int)
    requires Denotes(s, n) && Denotes(t, n)
    ensures s == t
    decreases |s|
  {
    var a, b := s[..|s| - 1], t[..|t| - 1];
    LastDigit(s, n);
    LastDigit(t, n);
    if |s| > 1 && |t| > 1 {
      DenotesOne(a, b, n / 10);
    } else if |s| > 1 {
      NumeralPositive(a);
    } else if |t| > 1 {
      NumeralPositive(b);
    }
    assert s == a + [s[|s| - 1]] && t == b + [t[|t| - 1]];
  }

  lemma LastDigit(s: string, n: int)
    requires Denotes(s, n)
    ensures Numeral(s[..|s| - 1]) == n / 10 && s[|s| - 1] as int - '0' as int == n % 10
    ensures |s| > 1 ==> Denotes(s[..|s| - 1], n / 10)
  {
  }

  lemma {:induction false} NumeralPositive(s: string)
    requires s != "" && s[0] != '0' && forall i :: 0 <= i < |s| ==> '0' <= s[i] <= '9'
    ensures Numeral(s) > 0
  {
    if |s| > 1 {
      NumeralPositive(s[..|s| - 1]);
    }
  }

  /** A message ID: text as it is, an unsigned number as its numeral. */
  ghost predicate IsId(j: Option<Json>, id: string) {
    j == Some(Str(id)) || (j.Some? && j.value.Int? && 0 <= j.value.n <= U64_MAX && Denotes(id, j.value.n))
  }

  lemma IdIff(j: Option<Json>, id: string)
    ensures IsId(j, id) <==> TextIds(j) == Some(Str(id))
  {
    if j.Some? && j.value.Int? && 0 <= j.value.n <= U64_MAX {
      DecimalDenotes(j.value.n);
      if Denotes(id, j.value.n) {
        DenotesOne(id, Decimal(j.value.n), j.value.n);
      }
    }
  }

  // ---- Replies ----

  ghost predicate IsSendResult(m: Fields, r: SendResult) {
    && IsId(Found(m, "messageId", "message_id"), r.messageId)
    && IsNumber(Found(m, "messageSeq", "message_seq"), r.messageSeq, 0, U64_MAX)
    && IsNumber(Found(m, "reasonCode", "reason_code"), r.reasonCode, I64_MIN, I64_MAX)
  }

  /** A member that may be absent has its default. */
  predicate IsTextOr(j: Option<Json>, s: string) {
    j == Some(Str(s)) || (j == None && s == "")
  }

  predicate IsNumberOr(j: Option<Json>, n: int, low: int, high: int) {
    IsNumber(j, n, low, high) || (j == None && n == 0)
  }

  ghost predicate IsConnectResult(m: Fields, r: ConnectResult) {
    && IsNumber(Found(m, "reasonCode", "reason_code"), r.reasonCode, I64_MIN, I64_MAX)
    && IsTextOr(Found(m, "serverKey", "server_key"), r.serverKey)
    && IsTextOr(One(m, "salt"), r.salt)
    && IsNumberOr(Found(m, "timeDiff", "time_diff"), r.timeDiff, I64_MIN, I64_MAX)
    && IsNumberOr(Found(m, "serverVersion", "server_version"), r.serverVersion, 0, U32_MAX)
    && IsNumberOr(Found(m, "nodeId", "node_id"), r.nodeId, 0, U64_MAX)
  }

  lemma ReplySpellings()
    ensures |TABLE| == 14
    ensures TABLE[0] == Alias("reason_code", "reasonCode")
    ensures TABLE[1] == Alias("server_key", "serverKey")
    ensures TABLE[2] == Alias("time_diff", "timeDiff")
    ensures TABLE[3] == Alias("server_version", "serverVersion")
    ensures TABLE[4] == Alias("node_id", "nodeId")
  {
  }

  /** The members of a normalised object, by their keys in the raw one. */
  lemma SendMembers(m: Fields)
    ensures var n := Normal(Obj(m), TABLE);
            && n.Obj?
            && Get(n, "messageId") == TextIds(Found(m, "messageId", "message_id"))
            && Get(n, "messageSeq") == Found(m, "messageSeq", "message_seq")
            && Get(n, "reasonCode") == Found(m, "reasonCode", "reason_code")
  {
    hide Normal, TextIds, TABLE;
    ReplySpellings();
    MessageSpellings();
    HeaderAt(Obj(m));
    SpellingAt(Obj(m), 0);
    SpellingAt(Obj(m), 5);
    SpellingAt(Obj(m), 6);
  }

  lemma ConnectMembers(m: Fields)
    ensures var n := Normal(Obj(m), TABLE);
            && n.Obj?
            && Get(n, "reasonCode") == Found(m, "reasonCode", "reason_code")
            && Get(n, "serverKey") == Found(m, "serverKey", "server_key")
            && Get(n, "salt") == One(m, "salt")
            && Get(n, "timeDiff") == Found(m, "timeDiff", "time_diff")
            && Get(n, "serverVersion") == Found(m, "serverVersion", "server_version")
            && Get(n, "nodeId") == Found(m, "nodeId", "node_id")
  {
    hide Normal, TextIds, TABLE;
    ReplySpellings();
    HeaderAt(Obj(m));
    SaltPlain(Obj(m));
    SpellingAt(Obj(m), 0);
    SpellingAt(Obj(m), 1);
    SpellingAt(Obj(m), 2);
    SpellingAt(Obj(m), 3);
    SpellingAt(Obj(m), 4);
  }

  lemma SaltPlain(j: Json)
    requires j.Obj?
    ensures Get(Normal(j, TABLE), "salt") == Get(j, "salt")
  {
    hide Normal, Get;
    PlainAt(j, "salt", 4_115_116);
  }

  /** An object decodes to a SEND result exactly when its keys say so. */
  lemma SendDecodesIff(m: Fields, r: SendResult)
    ensures DecodeSend(Obj(m)) == Ok(r) <==> IsSendResult(m, r)
  {
    hide Normal, TextIds, Denotes, IsId;
    SendMembers(m);
    IdIff(Found(m, "messageId", "message_id"), r.messageId);
  }

  lemma ConnectOfIff(reason: Json, key: Option<Json>, salt: Option<Json>, diff: Option<Json>, version: Option<Json>,
                     node: Option<Json>, r: ConnectResult)
    ensures ConnectResultOf(reason, key, salt, diff, version, node) == Ok(r)
       <==> && IsNumber(Some(reason), r.reasonCode, I64_MIN, I64_MAX) && IsTextOr(key, r.serverKey) && IsTextOr(salt, r.salt)
            && IsNumberOr(diff, r.timeDiff, I64_MIN, I64_MAX) && IsNumberOr(version, r.serverVersion, 0, U32_MAX)
            && IsNumberOr(node, r.nodeId, 0, U64_MAX)
  {
  }

  /** An object decodes to an authentication result exactly when its keys say so. */
  lemma ConnectDecodesIff(m: Fields, r: ConnectResult)
    ensures DecodeConnect(Obj(m)) == Ok(r) <==> IsConnectResult(m, r)
  {
    hide Normal, ConnectResultOf, IsNumberOr, IsTextOr;
    ConnectMembers(m);
    var reason := Found(m, "reasonCode", "reason_code");
    if reason.Some? {
      ConnectOfIff(reason.value, Found(m, "serverKey", "server_key"), One(m, "salt"), Found(m, "timeDiff", "time_diff"),
                   Found(m, "serverVersion", "server_version"), Found(m, "nodeId", "node_id"), r);
    }
  }

  /** By position: exactly three members for a SEND result. */
  predicate IsListedSendResult(items: seq<Json>, r: SendResult) {
    && items == [Str(r.messageId), Int(r.messageSeq), Int(r.reasonCode)]
    && 0 <= r.messageSeq <= U64_MAX && I64_MIN <= r.reasonCode <= I64_MAX
  }

  lemma PositionalSendIff(items: seq<Json>, r: SendResult)
    ensures DecodeSend(Arr(items)) == Ok(r) <==> IsListedSendResult(items, r)
  {
  }

  predicate IsListedConnectResult(items: seq<Json>, r: ConnectResult) {
    && |items| <= 6
    && IsNumber(Nth(items, 0), r.reasonCode, I64_MIN, I64_MAX)
    && IsTextOr(Nth(items, 1), r.serverKey) && IsTextOr(Nth(items, 2), r.salt)
    && IsNumberOr(Nth(items, 3), r.timeDiff, I64_MIN, I64_MAX)
    && IsNumberOr(Nth(items, 4), r.serverVersion, 0, U32_MAX) && IsNumberOr(Nth(items, 5), r.nodeId, 0, U64_MAX)
  }

  lemma PositionalConnectIff(items: seq<Json>, r: ConnectResult)
    ensures DecodeConnect(Arr(items)) == Ok(r) <==> IsListedConnectResult(items, r)
  {
  }

  /** The reason code that a result shows: objects only, camelCase first. */
  function Reason(result: Json): Option<Json> {
    match result
    case Obj(m) => Found(m, "reasonCode", "reason_code")
    case _ => None
  }

  /** The reply has a result, no error, and no reason code but 1. */
  predicate Accepts(m: Fields) {
    "result" in m && "error" !in m && (Reason(m["result"]) == None || Reason(m["result"]) == Some(Int(1)))
  }

  /** The reply's only verdict is the number `n`. */
  predicate Rejects(m: Fields, n: int) {
    && I64_MIN <= n <= I64_MAX
    && if "error" in m then "result" !in m && m["error"].Obj? && One(m["error"].fields, "code") == Some(Int(n))
       else "result" in m && Reason(m["result"]) == Some(Int(n)) && n != 1
  }

  /** A reply is a success exactly when it is accepted, and then with its result. */
  lemma SuccessIff(m: Fields, x: Json)
    ensures Response(Obj(m)) == Ok(x) <==> Accepts(m) && m["result"] == x
  {
  }

  /** A reply is a server's rejection with code `n` exactly when its only verdict is that number. */
  lemma RejectionIff(m: Fields, n: int)
    ensures Response(Obj(m)) == Err(Server(n)) <==> Rejects(m, n)
  {
  }

  /** Everything else is a protocol error. */
  lemma OtherwiseProtocol(m: Fields)
    ensures Response(Obj(m)).Err? ==> Response(Obj(m)).error.Server? || Response(Obj(m)).error.Protocol?
  {
  }

  ghost predicate HoldsSendResult(j: Json, r: SendResult) {
    match j
    case Obj(m) => IsSendResult(m, r)
    case Arr(items) => IsListedSendResult(items, r)
    case _ => false
  }

  lemma HoldsSendIff(j: Json, r: SendResult)
    ensures DecodeSend(j) == Ok(r) <==> HoldsSendResult(j, r)
  {
    hide Normal, IsSendResult, IsListedSendResult;
    match j
    case Obj(m) => SendDecodesIff(m, r);
    case Arr(items) => PositionalSendIff(items, r);
    case _ => NothingHeld(j);
  }

  lemma NothingHeld(j: Json)
    requires !j.Obj? && !j.Arr?
    ensures DecodeSend(j).Err? && DecodeConnect(j).Err?
  {
  }

  lemma SendErrors(j: Json)
    ensures DecodeSend(j).Err? ==> DecodeSend(j).error.Protocol?
  {
    hide Normal;
  }

  ghost predicate HoldsConnectResult(j: Json, r: ConnectResult) {
    match j
    case Obj(m) => IsConnectResult(m, r)
    case Arr(items) => IsListedConnectResult(items, r)
    case _ => false
  }

  lemma HoldsConnectIff(j: Json, r: ConnectResult)
    ensures DecodeConnect(j) == Ok(r) <==> HoldsConnectResult(j, r)
  {
    hide Normal, IsConnectResult, IsListedConnectResult;
    match j
    case Obj(m) => ConnectDecodesIff(m, r);
    case Arr(items) => PositionalConnectIff(items, r);
    case _ => NothingHeld(j);
  }

  /** Authentication succeeds with `r` exactly when the reply is accepted and holds `r`. */
  lemma AuthenticatedIff(m: Fields, r: ConnectResult)
    ensures ConnectReply(Obj(m)) == Ok(r) <==> Accepts(m) && HoldsConnectResult(m["result"], r)
  {
    hide Response, DecodeConnect, HoldsConnectResult, Reason;
    if "result" in m {
      SuccessIff(m, m["result"]);
      HoldsConnectIff(m["result"], r);
    }
    var response := Response(Obj(m));
    if response.Ok? {
      SuccessIff(m, response.value);
    }
  }

  // ---- Messages ----

  const NO_FLAGS: Header := Header(false, false, false, false)

  predicate FlagList(items: seq<Json>, h: Header) {
    && |items| <= 4
    && IsFlag(Nth(items, 0), h.noPersist) && IsFlag(Nth(items, 1), h.redDot)
    && IsFlag(Nth(items, 2), h.syncOnce) && IsFlag(Nth(items, 3), h.dup)
  }

  /** A header under either spelling of its flags, or by position. */
  predicate IsHeader(j: Json, h: Header) {
    match j
    case Obj(m) =>
      && IsFlag(Found(m, "noPersist", "no_persist"), h.noPersist) && IsFlag(Found(m, "redDot", "red_dot"), h.redDot)
      && IsFlag(Found(m, "syncOnce", "sync_once"), h.syncOnce) && IsFlag(One(m, "dup"), h.dup)
    case Arr(items) => FlagList(items, h)
    case _ => false
  }

  /** The header of a positional message: camelCase flags only. */
  predicate IsPlainHeader(j: Json, h: Header) {
    match j
    case Obj(m) =>
      && IsFlag(One(m, "noPersist"), h.noPersist) && IsFlag(One(m, "redDot"), h.redDot)
      && IsFlag(One(m, "syncOnce"), h.syncOnce) && IsFlag(One(m, "dup"), h.dup)
    case Arr(items) => FlagList(items, h)
    case _ => false
  }

  predicate IsSetting(j: Json, s: Setting) {
    match j
    case Obj(m) =>
      && IsFlag(One(m, "receipt"), s.receipt) && IsFlag(One(m, "signal"), s.signal)
      && IsFlag(One(m, "stream"), s.streamed) && IsFlag(One(m, "topic"), s.topic)
    case Arr(items) =>
      && |items| <= 4
      && IsFlag(Nth(items, 0), s.receipt) && IsFlag(Nth(items, 1), s.signal)
      && IsFlag(Nth(items, 2), s.streamed) && IsFlag(Nth(items, 3), s.topic)
    case _ => false
  }

  predicate IsOptionalSetting(j: Option<Json>, s: Option<Setting>) {
    match s
    case None => j == None || j == Some(Null)
    case Some(t) => j.Some? && IsSetting(j.value, t)
  }

  /** Content sent as text that the codec can unpack is what it unpacks to; any other content is itself. */
  predicate IsContent(raw: Option<Json>, unpack: string -> Option<Json>, content: Json) {
    raw.Some?
    && content == if raw.value.Str? && unpack(raw.value.s).Some? then unpack(raw.value.s).value else raw.value
  }

  /** `x` is the message in the object `m`. */
  ghost predicate IsMessage(codec: Codec, m: Fields, x: RecvMessage) {
    && (if "header" in m then IsHeader(m["header"], x.header) else x.header == NO_FLAGS)
    && IsId(Found(m, "messageId", "message_id"), x.messageId) && x.messageId != ""
    && IsNumber(Found(m, "messageSeq", "message_seq"), x.messageSeq, 0, U64_MAX)
    && IsNumber(One(m, "timestamp"), x.timestamp, I64_MIN, I64_MAX)
    && IsText(Found(m, "channelId", "channel_id"), x.channelId) && x.channelId != ""
    && IsNumber(Found(m, "channelType", "channel_type"), x.channelType, 0, 255)
    && IsText(Found(m, "fromUid", "from_uid"), x.fromUid)
    && IsContent(One(m, "payload"), codec.packed, x.payload)
    && IsOptionalText(Found(m, "clientMsgNo", "client_msg_no"), x.clientMsgNo)
    && IsOptionalSetting(One(m, "setting"), x.setting)
    && IsOptionalText(One(m, "topic"), x.topic)
  }

  /** `x` is the message listed by position. */
  predicate IsListedMessage(codec: Codec, items: seq<Json>, x: RecvMessage) {
    && |items| <= 11
    && (if items != [] then IsPlainHeader(items[0], x.header) else x.header == NO_FLAGS)
    && IsText(Nth(items, 1), x.messageId) && x.messageId != ""
    && IsNumber(Nth(items, 2), x.messageSeq, 0, U64_MAX)
    && IsNumber(Nth(items, 3), x.timestamp, I64_MIN, I64_MAX)
    && IsText(Nth(items, 4), x.channelId) && x.channelId != ""
    && IsNumber(Nth(items, 5), x.channelType, 0, 255)
    && IsText(Nth(items, 6), x.fromUid)
    && IsContent(Nth(items, 7), codec.packed, x.payload)
    && IsOptionalText(Nth(items, 8), x.clientMsgNo)
    && IsOptionalSetting(Nth(items, 9), x.setting)
    && IsOptionalText(Nth(items, 10), x.topic)
  }

  /** What `params` must be to hold the message `x`. */
  ghost predicate HoldsMessage(codec: Codec, params: Json, x: RecvMessage) {
    match params
    case Obj(m) => IsMessage(codec, m, x)
    case Arr(items) => IsListedMessage(codec, items, x)
    case _ => false
  }

  lemma FlagsIff(n: Option<Json>, r: Option<Json>, s: Option<Json>, d: Option<Json>, h: Header)
    ensures HeaderFrom(n, r, s, d) == Some(h)
       <==> IsFlag(n, h.noPersist) && IsFlag(r, h.redDot) && IsFlag(s, h.syncOnce) && IsFlag(d, h.dup)
  {
  }

  lemma PlainHeaderIff(j: Json, h: Header)
    ensures ReadHeader(j) == Some(h) <==> IsPlainHeader(j, h)
  {
    hide HeaderFrom, IsFlag;
    match j
    case Obj(m) => FlagsIff(One(m, "noPersist"), One(m, "redDot"), One(m, "syncOnce"), One(m, "dup"), h);
    case Arr(items) => FlagsIff(Nth(items, 0), Nth(items, 1), Nth(items, 2), Nth(items, 3), h);
    case _ =>
  }

  lemma HeaderIff(j: Json, h: Header)
    ensures DirectHeader(j) == Some(h) <==> IsHeader(j, h)
  {
    hide HeaderFrom, IsFlag;
    PlainHeaderIff(j, h);
    if j.Obj? {
      var m := j.fields;
      FlagsIff(Found(m, "noPersist", "no_persist"), Found(m, "redDot", "red_dot"), Found(m, "syncOnce", "sync_once"),
               One(m, "dup"), h);
    }
  }

  lemma SettingIff(j: Option<Json>, s: Option<Setting>)
    ensures Optional(j, ReadSetting) == Some(s) <==> IsOptionalSetting(j, s)
  {
  }

  lemma OptionalTextIff(j: Option<Json>, s: Option<string>)
    ensures Optional(j, AsStr) == Some(s) <==> IsOptionalText(j, s)
  {
  }

  /** The members of a message before its content is unpacked. */
  lemma MessageFromIff(header: Header, p: Spelled, q: Single, x: RecvMessage)
    ensures MessageFrom(header, p, q) == Some(x)
       <==> && x.header == header && IsText(p.id, x.messageId) && IsNumber(p.sequence, x.messageSeq, 0, U64_MAX)
            && IsNumber(q.timestamp, x.timestamp, I64_MIN, I64_MAX) && IsText(p.channel, x.channelId)
            && IsNumber(p.kind, x.channelType, 0, 255) && IsText(p.sender, x.fromUid) && q.payload == Some(x.payload)
            && IsOptionalText(p.number, x.clientMsgNo) && IsOptionalSetting(q.setting, x.setting)
            && IsOptionalText(q.topic, x.topic)
  {
    hide ReadSetting, IsSetting, IsOptionalText, IsOptionalSetting;
    OptionalTextIff(p.number, x.clientMsgNo);
    SettingIff(q.setting, x.setting);
    OptionalTextIff(q.topic, x.topic);
  }

  lemma DirectMessageIff(m: Fields, x: RecvMessage)
    ensures DirectRecv(Obj(m)) == Some(x)
       <==> && (if "header" in m then IsHeader(m["header"], x.header) else x.header == NO_FLAGS)
            && TextIds(Found(m, "messageId", "message_id")) == Some(Str(x.messageId))
            && IsNumber(Found(m, "messageSeq", "message_seq"), x.messageSeq, 0, U64_MAX)
            && IsNumber(One(m, "timestamp"), x.timestamp, I64_MIN, I64_MAX)
            && IsText(Found(m, "channelId", "channel_id"), x.channelId)
            && IsNumber(Found(m, "channelType", "channel_type"), x.channelType, 0, 255)
            && IsText(Found(m, "fromUid", "from_uid"), x.fromUid)
            && One(m, "payload") == Some(x.payload)
            && IsOptionalText(Found(m, "clientMsgNo", "client_msg_no"), x.clientMsgNo)
            && IsOptionalSetting(One(m, "setting"), x.setting)
            && IsOptionalText(One(m, "topic"), x.topic)
  {
    hide MessageFrom, DirectHeader, IsHeader, TextIds, IsOptionalText, IsOptionalSetting, IsNumber;
    var p := Spelled(TextIds(Found(m, "messageId", "message_id")), Found(m, "messageSeq", "message_seq"),
                     Found(m, "channelId", "channel_id"), Found(m, "channelType", "channel_type"),
                     Found(m, "fromUid", "from_uid"), Found(m, "clientMsgNo", "client_msg_no"));
    var q := Single(One(m, "timestamp"), One(m, "payload"), One(m, "setting"), One(m, "topic"));
    MessageFromIff(x.header, p, q, x);
    if "header" in m {
      HeaderIff(m["header"], x.header);
      var h := DirectHeader(m["header"]);
      if h.Some? && h != Some(x.header) {
        MessageFromIff(h.value, p, q, x);
      }
    } else {
      MessageFromIff(NO_FLAGS, p, q, x);
    }
  }

  /** Unpacking the content of a message that reads as `y` gives `x`. */
  lemma UnpackedIff(codec: Codec, raw: Option<Json>, x: Json)
    ensures raw.Some? && x == Unpacked(raw.value, codec.packed) <==> IsContent(raw, codec.packed, x)
    ensures raw.Some? && x == Unpacked(raw.value, codec.text) <==> IsContent(raw, codec.text, x)
  {
  }

  /** An object is received as the message `x` exactly when its keys say `x`. */
  lemma MessageIff(codec: Codec, m: Fields, x: RecvMessage)
    ensures Recv(codec, Obj(m)) == Ok(x) <==> IsMessage(codec, m, x)
  {
    hide Normal, ReadRecv, DirectRecv, IsHeader, TextIds, IsOptionalText, IsOptionalSetting, IsNumber, Unpacked, IsContent, IsId, IsText, Found;
    RecvReadsDirectly(Obj(m));
    IdIff(Found(m, "messageId", "message_id"), x.messageId);
    UnpackedIff(codec, One(m, "payload"), x.payload);
    var read := DirectRecv(Obj(m));
    if read.Some? {
      var y := read.value;
      DirectMessageIff(m, y);
      DirectMessageIff(m, x.(payload := y.payload));
    }
    if One(m, "payload").Some? {
      DirectMessageIff(m, x.(payload := One(m, "payload").value));
    }
  }

  lemma ListedFromIff(items: seq<Json>, header: Header, x: RecvMessage)
    ensures PositionalRest(items, header) == Some(x)
       <==> && x.header == header
            && IsText(Nth(items, 1), x.messageId) && IsNumber(Nth(items, 2), x.messageSeq, 0, U64_MAX)
            && IsNumber(Nth(items, 3), x.timestamp, I64_MIN, I64_MAX) && IsText(Nth(items, 4), x.channelId)
            && IsNumber(Nth(items, 5), x.channelType, 0, 255) && IsText(Nth(items, 6), x.fromUid)
            && Nth(items, 7) == Some(x.payload)
            && IsOptionalText(Nth(items, 8), x.clientMsgNo) && IsOptionalSetting(Nth(items, 9), x.setting)
            && IsOptionalText(Nth(items, 10), x.topic)
  {
    hide MessageFrom, IsOptionalText, IsOptionalSetting, IsNumber, IsText;
    var p := Spelled(Nth(items, 1), Nth(items, 2), Nth(items, 4), Nth(items, 5), Nth(items, 6), Nth(items, 8));
    var q := Single(Nth(items, 3), Nth(items, 7), Nth(items, 9), Nth(items, 10));
    MessageFromIff(header, p, q, x);
  }

  lemma ReadListed(items: seq<Json>)
    ensures ReadRecv(Normal(Arr(items), TABLE))
         == if |items| > 11 then None
            else if items == [] then PositionalRest(items, NO_FLAGS)
            else if ReadHeader(items[0]).Some? then PositionalRest(items, ReadHeader(items[0]).value)
            else None
  {
    hide MessageFrom, ReadHeader;
  }

  /** A list is received as the message `x` exactly when its positions say `x`. */
  lemma ListedMessageIff(codec: Codec, items: seq<Json>, x: RecvMessage)
    ensures Recv(codec, Arr(items)) == Ok(x) <==> IsListedMessage(codec, items, x)
  {
    hide Normal, ReadRecv, PositionalRest, ReadHeader, IsPlainHeader, IsOptionalText, IsOptionalSetting, IsNumber, IsText, Unpacked, IsContent;
    ReadListed(items);
    UnpackedIff(codec, Nth(items, 7), x.payload);
    if |items| <= 11 {
      if items != [] {
        PlainHeaderIff(items[0], x.header);
      }
      var header := if items == [] then Some(NO_FLAGS) else ReadHeader(items[0]);
      if header.Some? {
        var read := PositionalRest(items, header.value);
        if read.Some? {
          ListedFromIff(items, header.value, read.value);
          ListedFromIff(items, header.value, x.(payload := read.value.payload));
        }
        if Nth(items, 7).Some? {
          ListedFromIff(items, header.value, x.(payload := Nth(items, 7).value));
        }
      }
    }
  }

  /** `params` is received as the message `x` exactly when it holds `x`. */
  lemma RecvIff(codec: Codec, params: Json, x: RecvMessage)
    ensures Recv(codec, params) == Ok(x) <==> HoldsMessage(codec, params, x)
  {
    hide Recv, IsMessage, IsListedMessage;
    match params
    case Obj(m) => MessageIff(codec, m, x);
    case Arr(items) => ListedMessageIff(codec, items, x);
    case _ => NoMessage(codec, params);
  }

  lemma NoMessage(codec: Codec, params: Json)
    requires !params.Obj? && !params.Arr?
    ensures Recv(codec, params).Err?
  {
  }

  // ---- Custom events ----

  predicate IsOptionalHeader(j: Option<Json>, h: Option<Header>) {
    match h
    case None => j == None || j == Some(Null)
    case Some(g) => j.Some? && IsHeader(j.value, g)
  }

  /** `params` holds the event `x`: an object always, since a list has no `data` member. */
  predicate HoldsEvent(codec: Codec, params: Json, x: CustomEvent) {
    && params.Obj?
    && var m := params.fields;
    && IsOptionalHeader(One(m, "header"), x.header)
    && IsText(One(m, "id"), x.id) && x.id != ""
    && IsText(One(m, "type"), x.eventType) && x.eventType != ""
    && IsNumber(One(m, "timestamp"), x.timestamp, I64_MIN, I64_MAX)
    && IsContent(One(m, "data"), codec.text, x.data)
  }

  lemma OptionalHeaderIff(j: Option<Json>, h: Option<Header>)
    ensures Optional(j, DirectHeader) == Some(h) <==> IsOptionalHeader(j, h)
  {
    hide DirectHeader, IsHeader;
    if j.Some? {
      if h.Some? {
        HeaderIff(j.value, h.value);
      }
      if j.value.Null? {
        NullIsNoHeader(j.value);
      }
    }
  }

  lemma NullIsNoHeader(j: Json)
    requires j.Null?
    ensures DirectHeader(j) == None && forall h :: !IsHeader(j, h)
  {
  }

  lemma DirectEventIff(m: Fields, x: CustomEvent)
    ensures DirectEvent(Obj(m)) == Some(x)
       <==> && IsOptionalHeader(One(m, "header"), x.header)
            && IsText(One(m, "id"), x.id) && IsText(One(m, "type"), x.eventType)
            && IsNumber(One(m, "timestamp"), x.timestamp, I64_MIN, I64_MAX) && One(m, "data") == Some(x.data)
  {
    hide DirectHeader, IsOptionalHeader;
    OptionalHeaderIff(One(m, "header"), x.header);
  }

  /** `params` is received as the event `x` exactly when it holds `x`. */
  lemma EventIff(codec: Codec, params: Json, x: CustomEvent)
    ensures EventOf(codec, params) == Ok(x) <==> HoldsEvent(codec, params, x)
  {
    hide Normal, ReadEvent, DirectEvent, IsOptionalHeader, IsNumber, IsText, Unpacked, IsContent;
    if params.Obj? {
      var m := params.fields;
      EventReadsDirectly(params);
      UnpackedIff(codec, One(m, "data"), x.data);
      var read := DirectEvent(params);
      if read.Some? {
        DirectEventIff(m, read.value);
        DirectEventIff(m, x.(data := read.value.data));
      }
      if One(m, "data").Some? {
        DirectEventIff(m, x.(data := One(m, "data").value));
      }
    }
  }
}
