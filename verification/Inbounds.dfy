/**
 * What a frame means to the session loop, spelled out on the raw tree (src/client.rs:483-521): which frames are
 * replies, which notifications, and what each carries. `Dispatch.Interpret` is proved to agree, both ways.
 */
module Inbounds {
  import opened Types
  import opened Json
  import opened Aliases
  import opened Protocol
  import opened Events
  import opened Dispatch
  import opened Readings

  /** The text is the JSON-RPC object `m`. */
  predicate Envelope(codec: Codec, text: string, m: Fields) {
    codec.text(text) == Some(Obj(m)) && ("jsonrpc" in m ==> m["jsonrpc"] == Str("2.0"))
  }

  predicate NoTextId(m: Fields) {
    !("id" in m && m["id"].Str?)
  }

  /** A notification of that kind: no text under `id`, and the kind under `method`. */
  predicate Notifies(m: Fields, kind: string) {
    NoTextId(m) && One(m, "method") == Some(Str(kind))
  }

  predicate NoTextMethod(m: Fields) {
    !("method" in m && m["method"].Str?)
  }

  function Params(m: Fields): Json {
    if "params" in m then m["params"] else Null
  }

  /** The JSON-RPC object of a frame, if it is one. */
  function Tree(codec: Codec, frame: Frame): Option<Fields> {
    if !frame.TextFrame? then None
    else
      match codec.text(frame.text)
      case Some(Obj(m)) => if "jsonrpc" in m && m["jsonrpc"] != Str("2.0") then None else Some(m)
      case _ => None
  }

  // ---- Replies ----

  /** A text is a reply with that ID exactly when the ID is there as text, whatever its method. */
  lemma ReplyIff(codec: Codec, text: string, m: Fields, id: string)
    requires Envelope(codec, text, m)
    ensures var i := Interpret(codec, TextFrame(text));
            i.Reply? && i.id == id <==> One(m, "id") == Some(Str(id))
  {
    hide Response, SendReply, Notified;
    NotifiedIsNoReply(codec, m);
  }

  lemma NotifiedIsNoReply(codec: Codec, m: Fields)
    ensures forall kind, params :: !Notified(codec, kind, params).Reply?
  {
    hide Recv, EventOf;
  }

  /** The verdicts of a reply, for the heartbeat and for a SEND, with everything they carry. */
  lemma VerdictsIff(codec: Codec, text: string, m: Fields, r: SendResult, n: int)
    requires Envelope(codec, text, m) && !NoTextId(m)
    ensures var i := Interpret(codec, TextFrame(text));
            && i.Reply?
            && (i.pong.Ok? <==> Accepts(m))
            && (i.pong == Err(Server(n)) <==> Rejects(m, n))
            && (i.pong.Err? ==> i.pong.error.Server? || i.pong.error.Protocol?)
            && (i.ack == Ok(r) <==> Accepts(m) && HoldsSendResult(m["result"], r))
            && (i.ack == Err(Server(n)) <==> Rejects(m, n))
            && (i.ack.Err? ==> i.ack.error.Server? || i.ack.error.Protocol?)
  {
    hide Response, DecodeSend, HoldsSendResult, Reason;
    OtherwiseProtocol(m);
    RejectionIff(m, n);
    if "result" in m {
      SuccessIff(m, m["result"]);
      HoldsSendIff(m["result"], r);
      SendErrors(m["result"]);
    }
    var response := Response(Obj(m));
    if response.Ok? {
      SuccessIff(m, response.value);
    }
  }

  /** What a reply settles a SEND with. */
  ghost predicate IsVerdict(m: Fields, ack: Result<SendResult>) {
    match ack
    case Ok(r) => Accepts(m) && HoldsSendResult(m["result"], r)
    case Err(Server(n)) => Rejects(m, n)
    case Err(Protocol(_)) =>
      (forall n :: !Rejects(m, n)) && (Accepts(m) ==> forall r :: !HoldsSendResult(m["result"], r))
    case _ => false
  }

  /** What it says of a heartbeat. */
  ghost predicate IsPulse(m: Fields, pong: Result<()>) {
    match pong
    case Ok(_) => Accepts(m)
    case Err(Server(n)) => Rejects(m, n)
    case Err(Protocol(_)) => (forall n :: !Rejects(m, n)) && !Accepts(m)
    case _ => false
  }

  lemma Verdicts(codec: Codec, text: string, m: Fields)
    requires Envelope(codec, text, m) && !NoTextId(m)
    ensures var i := Interpret(codec, TextFrame(text));
            i.Reply? && One(m, "id") == Some(Str(i.id)) && IsVerdict(m, i.ack) && IsPulse(m, i.pong)
  {
    hide Interpret, Accepts, Rejects, HoldsSendResult;
    var i := Interpret(codec, TextFrame(text));
    ReplyIff(codec, text, m, m["id"].s);
    VerdictsIff(codec, text, m, if i.ack.Ok? then i.ack.value else SendResult("", 0, 0), 0);
    AcceptsResult(m);
    forall r, n
      ensures i.ack == Ok(r) <==> Accepts(m) && HoldsSendResult(m["result"], r)
      ensures (i.ack == Err(Server(n)) <==> Rejects(m, n)) && (i.pong == Err(Server(n)) <==> Rejects(m, n))
    {
      VerdictsIff(codec, text, m, r, n);
    }
  }

  lemma AcceptsResult(m: Fields)
    ensures Accepts(m) ==> "result" in m
  {
  }

  // ---- Notifications ----

  /** The reason a peer gives for ending the session, 0 if it gives no 64-bit integer. */
  predicate IsCode(j: Option<Json>, code: int) {
    if j.Some? && j.value.Int? && I64_MIN <= j.value.n <= I64_MAX then code == j.value.n else code == 0
  }

  lemma NotifiedText(codec: Codec, text: string, m: Fields)
    requires Envelope(codec, text, m) && NoTextId(m)
    ensures Interpret(codec, TextFrame(text))
         == if NoTextMethod(m) then Malformed(Error.Protocol("missing response ID or method"))
            else Notified(codec, m["method"].s, Params(m))
  {
    hide Notified, Response, SendReply;
  }

  lemma ReplyOnlyWithId(codec: Codec, text: string, m: Fields)
    requires Envelope(codec, text, m) && !NoTextId(m)
    ensures Interpret(codec, TextFrame(text)).Reply?
  {
    hide Notified, Response, SendReply;
  }

  lemma {:induction false} PongIff(codec: Codec, text: string, m: Fields)
    requires Envelope(codec, text, m)
    ensures Interpret(codec, TextFrame(text)) == PongNote <==> Notifies(m, "pong")
  {
    hide Interpret, Recv, EventOf;
    if NoTextId(m) {
      NotifiedText(codec, text, m);
    } else {
      ReplyOnlyWithId(codec, text, m);
    }
  }

  lemma {:induction false} ByeIff(codec: Codec, text: string, m: Fields, code: int)
    requires Envelope(codec, text, m)
    ensures Interpret(codec, TextFrame(text)) == Bye(code)
       <==> Notifies(m, "disconnect") && IsCode(Reason(Params(m)), code)
  {
    hide Interpret, Recv, EventOf;
    if NoTextId(m) {
      NotifiedText(codec, text, m);
    } else {
      ReplyOnlyWithId(codec, text, m);
    }
  }

  lemma {:induction false} DeliveryIff(codec: Codec, text: string, m: Fields, x: RecvMessage)
    requires Envelope(codec, text, m)
    ensures Interpret(codec, TextFrame(text)) == Delivery(x)
       <==> Notifies(m, "recv") && HoldsMessage(codec, Params(m), x)
  {
    hide Interpret, Recv, EventOf, HoldsMessage;
    RecvIff(codec, Params(m), x);
    if NoTextId(m) {
      NotifiedText(codec, text, m);
    } else {
      ReplyOnlyWithId(codec, text, m);
    }
  }

  lemma {:induction false} NoticeIff(codec: Codec, text: string, m: Fields, x: CustomEvent)
    requires Envelope(codec, text, m)
    ensures Interpret(codec, TextFrame(text)) == Notice(x)
       <==> Notifies(m, "event") && HoldsEvent(codec, Params(m), x)
  {
    hide Interpret, Recv, EventOf, HoldsEvent;
    EventIff(codec, Params(m), x);
    if NoTextId(m) {
      NotifiedText(codec, text, m);
    } else {
      ReplyOnlyWithId(codec, text, m);
    }
  }

  predicate KnownKind(kind: string) {
    kind == "recv" || kind == "event" || kind == "disconnect" || kind == "pong"
  }

  /** A notification of another kind is passed over. */
  lemma {:induction false} UnknownIff(codec: Codec, text: string, m: Fields)
    requires Envelope(codec, text, m)
    ensures Interpret(codec, TextFrame(text)) == Unknown
       <==> NoTextId(m) && !NoTextMethod(m) && !KnownKind(m["method"].s)
  {
    hide Interpret, Recv, EventOf;
    if NoTextId(m) {
      NotifiedText(codec, text, m);
    } else {
      ReplyOnlyWithId(codec, text, m);
    }
  }

  /** A text is malformed when it is no JSON-RPC 2.0 object, or names neither reply nor method, or its content is unreadable. */
  ghost predicate Unreadable(codec: Codec, text: string) {
    match codec.text(text)
    case Some(Obj(m)) =>
      || ("jsonrpc" in m && m["jsonrpc"] != Str("2.0"))
      || (NoTextId(m) && NoTextMethod(m))
      || (Notifies(m, "recv") && forall x :: !HoldsMessage(codec, Params(m), x))
      || (Notifies(m, "event") && forall x :: !HoldsEvent(codec, Params(m), x))
    case _ => true
  }

  lemma {:induction false} MalformedIff(codec: Codec, text: string)
    ensures var i := Interpret(codec, TextFrame(text));
            (i.Malformed? <==> Unreadable(codec, text)) && (i.Malformed? ==> i.error.Protocol?)
  {
    hide Recv, EventOf, HoldsMessage, HoldsEvent, Response, SendReply;
    var tree := codec.text(text);
    if tree.Some? && tree.value.Obj? {
      var m := tree.value.fields;
      if Envelope(codec, text, m) {
        EnvelopeMalformedIff(codec, text, m);
      }
    }
  }

  lemma EnvelopeMalformedIff(codec: Codec, text: string, m: Fields)
    requires Envelope(codec, text, m)
    ensures var i := Interpret(codec, TextFrame(text));
            (i.Malformed? <==> Unreadable(codec, text)) && (i.Malformed? ==> i.error.Protocol?)
  {
    hide Interpret, Recv, EventOf, HoldsMessage, HoldsEvent;
    if !NoTextId(m) {
      ReplyOnlyWithId(codec, text, m);
    } else {
      NotifiedText(codec, text, m);
      forall x ensures Recv(codec, Params(m)) == Ok(x) <==> HoldsMessage(codec, Params(m), x) {
        RecvIff(codec, Params(m), x);
      }
      forall x ensures EventOf(codec, Params(m)) == Ok(x) <==> HoldsEvent(codec, Params(m), x) {
        EventIff(codec, Params(m), x);
      }
      RecvErrors(codec, Params(m));
    }
  }

  lemma RecvErrors(codec: Codec, params: Json)
    ensures Recv(codec, params).Err? ==> Recv(codec, params).error.Protocol?
    ensures EventOf(codec, params).Err? ==> EventOf(codec, params).error.Protocol?
  {
    hide Normal, ReadRecv, ReadEvent;
  }

  /** Frames that are not text. */
  lemma OtherFrames(codec: Codec, frame: Frame)
    requires !frame.TextFrame?
    ensures var i := Interpret(codec, frame);
            && (i == SocketPing <==> frame == PingFrame) && (i == SocketPong <==> frame == PongFrame)
            && (i == Gone <==> frame == EndOfStream) && (i.Malformed? <==> frame == BinaryFrame)
            && (i.Malformed? ==> i.error.Protocol?)
  {
  }

  // ---- Every frame ----

  /** The frame is a notification of that kind. */
  predicate Calls(codec: Codec, frame: Frame, kind: string) {
    Tree(codec, frame).Some? && Notifies(Tree(codec, frame).value, kind)
  }

  /** The frame is a reply. */
  predicate Answers(codec: Codec, frame: Frame) {
    Tree(codec, frame).Some? && !NoTextId(Tree(codec, frame).value)
  }

  ghost predicate Garbled(codec: Codec, frame: Frame) {
    frame.BinaryFrame? || (frame.TextFrame? && Unreadable(codec, frame.text))
  }

  /** The frame asks for nothing. */
  predicate Passed(codec: Codec, frame: Frame) {
    || frame.PongFrame?
    || (Tree(codec, frame).Some?
        && var m := Tree(codec, frame).value;
           NoTextId(m) && !NoTextMethod(m) && !KnownKind(m["method"].s))
  }

  /** Every frame by what it is: the classes cover all frames, and each fixes the input. */
  lemma FrameMeaning(codec: Codec, frame: Frame)
    ensures var i, tree := Interpret(codec, frame), Tree(codec, frame);
            && (i == PongNote <==> Calls(codec, frame, "pong"))
            && (i.Bye? <==> Calls(codec, frame, "disconnect"))
            && (i.Bye? ==> IsCode(Reason(Params(tree.value)), i.code))
            && (Calls(codec, frame, "event") ==> forall x :: HoldsEvent(codec, Params(tree.value), x) ==> i == Notice(x))
            && (Calls(codec, frame, "recv") ==> forall x :: HoldsMessage(codec, Params(tree.value), x) ==> i == Delivery(x))
            && (i.Reply? <==> Answers(codec, frame))
            && (i.Reply? ==> tree.value["id"].s == i.id && IsPulse(tree.value, i.pong) && IsVerdict(tree.value, i.ack))
            && (i.Malformed? <==> Garbled(codec, frame)) && (i.Malformed? ==> i.error.Protocol?)
            && (i == Gone <==> frame.EndOfStream?) && (i == SocketPing <==> frame.PingFrame?)
            && (i == Unknown || i == SocketPong <==> Passed(codec, frame))
  {
    hide Interpret, Unreadable, HoldsEvent, HoldsMessage, IsPulse, IsVerdict, IsCode;
    if frame.TextFrame? {
      MalformedIff(codec, frame.text);
      if Tree(codec, frame).Some? {
        TextMeaning(codec, frame.text, Tree(codec, frame).value);
      } else {
        NoTree(codec, frame.text);
      }
    } else {
      OtherFrames(codec, frame);
    }
  }

  lemma NoTree(codec: Codec, text: string)
    requires Tree(codec, TextFrame(text)).None?
    ensures Interpret(codec, TextFrame(text)).Malformed?
  {
    hide Response, SendReply, Notified;
  }

  lemma TextMeaning(codec: Codec, text: string, m: Fields)
    requires Envelope(codec, text, m)
    ensures var i := Interpret(codec, TextFrame(text));
            && (i == PongNote <==> Notifies(m, "pong"))
            && (i.Bye? <==> Notifies(m, "disconnect"))
            && (i.Bye? ==> IsCode(Reason(Params(m)), i.code))
            && (Notifies(m, "event") ==> forall x :: HoldsEvent(codec, Params(m), x) ==> i == Notice(x))
            && (Notifies(m, "recv") ==> forall x :: HoldsMessage(codec, Params(m), x) ==> i == Delivery(x))
            && (i.Reply? <==> !NoTextId(m))
            && (i.Reply? ==> m["id"].s == i.id && IsPulse(m, i.pong) && IsVerdict(m, i.ack))
            && (i == Unknown <==> NoTextId(m) && !NoTextMethod(m) && !KnownKind(m["method"].s))
            && !i.Gone? && !i.SocketPing? && !i.SocketPong?
  {
    hide Interpret, HoldsEvent, HoldsMessage, IsPulse, IsVerdict, IsCode, Params;
    var i := Interpret(codec, TextFrame(text));
    PongIff(codec, text, m);
    UnknownIff(codec, text, m);
    ByeIff(codec, text, m, if i.Bye? then i.code else Code(Reason(Params(m))));
    CodeIsCode(Reason(Params(m)));
    forall x | HoldsEvent(codec, Params(m), x) && Notifies(m, "event") ensures i == Notice(x) {
      NoticeIff(codec, text, m, x);
    }
    forall x | HoldsMessage(codec, Params(m), x) && Notifies(m, "recv") ensures i == Delivery(x) {
      DeliveryIff(codec, text, m, x);
    }
    if NoTextId(m) {
      ReplyIff(codec, text, m, if i.Reply? then i.id else "");
    } else {
      Verdicts(codec, text, m);
    }
    TextIsNoControl(codec, text);
  }

  function Code(j: Option<Json>): int {
    if j.Some? && AsI64(j.value).Some? then j.value.n else 0
  }

  lemma CodeIsCode(j: Option<Json>)
    ensures IsCode(j, Code(j))
  {
  }

  lemma TextIsNoControl(codec: Codec, text: string)
    ensures var i := Interpret(codec, TextFrame(text)); !i.Gone? && !i.SocketPing? && !i.SocketPong?
  {
    hide Response, SendReply, Recv, EventOf;
  }
}
