/** JSON-RPC metadata rewriting, response classification and decoding (src/protocol.rs). */
module Protocol {
  import opened Types
  import opened Json
  import opened Aliases

  // ---- normalize ----

  const MESSAGE_ID: string := "messageId"
  const HEADER: string := "header"
  const PAYLOAD: string := "payload"
  const DATA: string := "data"

  /** Unsigned message IDs become text; anything else is left alone. */
  function TextId(id: Json): Json {
    if AsU64(id).Some? then Str(Decimal(id.n)) else id
  }

  function TextIds(id: Option<Json>): Option<Json> {
    if id.Some? then Some(TextId(id.value)) else None
  }

  /** The result of `normalize` with the alias list `t`, as a function; the source's list is TABLE. */
  function Normal(j: Json, t: seq<Alias>): Json {
    match j
    case Obj(m) =>
      var merged := MergeAll(m, t);
      var texted := if MESSAGE_ID in merged then merged[MESSAGE_ID := TextId(merged[MESSAGE_ID])] else merged;
      Obj(if HEADER in m then texted[HEADER := Normal(m[HEADER], t)] else texted)
    case _ => j
  }

  /**
   * The declarative form of `normalize`: every alias resolved in favour of camelCase, a numeric
   * messageId as text, the nested header in normal form, and every other member as it was.
   */
  ghost predicate NormalForm(j: Json, t: seq<Alias>, r: Json)
    decreases j
  {
    if !j.Obj? then r == j
    else r.Obj? && exists mid: Fields :: Resolved(j.fields, t, mid) && Finished(j, t, mid, r)
  }

  /** `r` is the resolved object `mid` with its message ID as text and its header in normal form. */
  ghost predicate Finished(j: Json, t: seq<Alias>, mid: Fields, r: Json)
    requires j.Obj? && r.Obj?
    decreases j, 0
  {
    && r.fields.Keys == mid.Keys
    && (forall k :: k in mid && k != MESSAGE_ID && k != HEADER ==> r.fields[k] == mid[k])
    && (MESSAGE_ID in mid ==> r.fields[MESSAGE_ID] == TextId(mid[MESSAGE_ID]))
    && (HEADER in j.fields ==> HEADER in r.fields && NormalForm(j.fields[HEADER], t, r.fields[HEADER]))
  }

  /** No snake_case spelling is left in the object or along its chain of nested headers. */
  ghost predicate NoAliasLeft(j: Json, t: seq<Alias>)
    decreases j
  {
    j.Obj? ==>
      && (forall a :: a in t ==> a.snake !in j.fields)
      && (HEADER in j.fields ==> NoAliasLeft(j.fields[HEADER], t))
  }

  /** What the proofs use of an alias list: spellings are distinct and none of them names structure or content. */
  ghost predicate Fit(t: seq<Alias>) {
    && Proper(t)
    && !Named(t, HEADER) && !Named(t, PAYLOAD) && !Named(t, DATA)
    && (forall a :: a in t ==> a.snake != MESSAGE_ID)
    && HEADER != MESSAGE_ID && PAYLOAD != MESSAGE_ID && DATA != MESSAGE_ID
    && HEADER != PAYLOAD && HEADER != DATA
  }

  lemma MarksAbsent(i: nat)
    requires i < |TABLE|
    ensures 6_104_114 != Mark(TABLE[i].snake) && 6_104_114 != Mark(TABLE[i].camel)
    ensures 7_112_100 != Mark(TABLE[i].snake) && 7_112_100 != Mark(TABLE[i].camel)
    ensures 4_100_097 != Mark(TABLE[i].snake) && 4_100_097 != Mark(TABLE[i].camel)
    ensures 9_109_100 != Mark(TABLE[i].snake)
  {
    TableMarks(i);
  }

  lemma PlainMarks()
    ensures Mark(HEADER) == 6_104_114 && Mark(PAYLOAD) == 7_112_100
    ensures Mark(DATA) == 4_100_097 && Mark(MESSAGE_ID) == 9_109_100
  {
  }

  lemma PlainNames()
    ensures !Named(TABLE, HEADER) && !Named(TABLE, PAYLOAD) && !Named(TABLE, DATA)
    ensures forall a :: a in TABLE ==> a.snake != MESSAGE_ID
  {
    PlainMarks();
    forall a | a in TABLE
      ensures a.snake !in {HEADER, PAYLOAD, DATA, MESSAGE_ID} && a.camel !in {HEADER, PAYLOAD, DATA}
    {
      var i :| 0 <= i < |TABLE| && TABLE[i] == a;
      MarksAbsent(i);
    }
  }

  /** The source's alias list is fit. */
  lemma TableFit()
    ensures Fit(TABLE)
  {
    TableProper();
    PlainMarks();
    PlainNames();
  }

  lemma ReasonCodeAliased()
    ensures Alias("reason_code", "reasonCode") in TABLE
  {
    assert TABLE[0] == Alias("reason_code", "reasonCode");
  }

  /** The alias loop of `normalize`. */
  method MergeAliases(fields: Fields, table: seq<Alias>) returns (members: Fields)
    ensures members == MergeAll(fields, table)
  {
    members := fields;
    var i := 0;
    while i < |table|
      invariant 0 <= i <= |table|
      invariant members == MergeAll(fields, table[..i])
    {
      var alias := table[i];
      if alias.snake in members {
        var v := members[alias.snake];
        members := members - {alias.snake};
        if alias.camel !in members {
          members := members[alias.camel := v];
        }
      }
      assert table[..i + 1][..i] == table[..i];
      i := i + 1;
    }
    assert table[..i] == table;
  }

  /** `normalize`: the alias loop over the object, then the message ID, then the header. */
  method Normalize(value: Json, table: seq<Alias>) returns (result: Json)
    requires Fit(table)
    ensures result == Normal(value, table)
    decreases value
  {
    hide MergeAll;
    result := value;
    if value.Obj? {
      var members := MergeAliases(value.fields, table);
      MergeAllResolves(value.fields, table);
      if MESSAGE_ID in members {
        var id := members[MESSAGE_ID];
        if id.Int? && 0 <= id.n <= U64_MAX {
          members := members[MESSAGE_ID := Str(Decimal(id.n))];
        }
      }
      if HEADER in members {
        var header := Normalize(members[HEADER], table);
        members := members[HEADER := header];
      }
      result := Obj(members);
    }
  }

  /** What `normalize` computes is its declarative form, on every JSON tree. */
  lemma {:induction false} NormalIsDeclarative(j: Json, t: seq<Alias>)
    requires Fit(t)
    ensures NormalForm(j, t, Normal(j, t))
    decreases j
  {
    if j.Obj? {
      var merged := MergeAll(j.fields, t);
      MergeAllResolves(j.fields, t);
      if HEADER in j.fields {
        NormalIsDeclarative(j.fields[HEADER], t);
      }
      assert Resolved(j.fields, t, merged) && Finished(j, t, merged, Normal(j, t));
    }
  }

  /** The declarative form leaves no choice: two trees that satisfy it are equal. */
  lemma {:induction false} NormalFormUnique(j: Json, t: seq<Alias>, r: Json, q: Json)
    requires Fit(t) && NormalForm(j, t, r) && NormalForm(j, t, q)
    ensures r == q
    decreases j
  {
    if j.Obj? {
      var m: Fields :| Resolved(j.fields, t, m) && Finished(j, t, m, r);
      var n: Fields :| Resolved(j.fields, t, n) && Finished(j, t, n, q);
      ResolvedUnique(j.fields, t, t, m, n);
      if HEADER in j.fields {
        NormalFormUnique(j.fields[HEADER], t, r.fields[HEADER], q.fields[HEADER]);
      }
      FinishedUnique(j, t, m, r, q);
    }
  }

  lemma FinishedUnique(j: Json, t: seq<Alias>, mid: Fields, r: Json, q: Json)
    requires j.Obj? && r.Obj? && q.Obj?
    requires Finished(j, t, mid, r) && Finished(j, t, mid, q)
    requires HEADER in mid ==> HEADER in j.fields && r.fields[HEADER] == q.fields[HEADER]
    ensures r == q
  {
    assert r.fields == q.fields;
  }

  /** The order in which the aliases are listed does not matter, at any depth. */
  lemma {:induction false} NormalOrderIrrelevant(j: Json, t: seq<Alias>, u: seq<Alias>)
    requires Fit(t) && Fit(u) && multiset(t) == multiset(u)
    ensures Normal(j, t) == Normal(j, u)
    decreases j
  {
    if j.Obj? {
      OrderIrrelevant(j.fields, t, u);
      if HEADER in j.fields {
        NormalOrderIrrelevant(j.fields[HEADER], t, u);
      }
    }
  }

  lemma {:induction false} NormalLeavesNoAlias(j: Json, t: seq<Alias>)
    requires Fit(t)
    ensures NoAliasLeft(Normal(j, t), t)
    decreases j
  {
    if j.Obj? {
      MergeAllResolves(j.fields, t);
      forall a | a in t ensures a.snake !in Normal(j, t).fields {
        assert Named(t, a.snake);
      }
      if HEADER in j.fields {
        NormalLeavesNoAlias(j.fields[HEADER], t);
      }
    }
  }

  /** Normalising twice is normalising once. */
  lemma {:induction false} NormalIdempotent(j: Json, t: seq<Alias>)
    requires Fit(t)
    ensures Normal(Normal(j, t), t) == Normal(j, t)
    decreases j
  {
    if j.Obj? {
      var n := Normal(j, t);
      NormalLeavesNoAlias(j, t);
      MergeAllResolves(j.fields, t);
      ResolvedStable(n.fields, t);
      MergeAllResolves(n.fields, t);
      ResolvedUnique(n.fields, t, t, n.fields, MergeAll(n.fields, t));
      if HEADER in j.fields {
        NormalIdempotent(j.fields[HEADER], t);
      }
      assert Normal(n, t).fields == n.fields;
    }
  }

  /** Application content is never rewritten: `payload` and `data` survive with everything below them. */
  lemma ContentUntouched(j: Json, t: seq<Alias>)
    requires Fit(t) && j.Obj?
    ensures Get(Normal(j, t), PAYLOAD) == Get(j, PAYLOAD)
    ensures Get(Normal(j, t), DATA) == Get(j, DATA)
  {
    MergeAllResolves(j.fields, t);
  }

  /** A camelCase key keeps its own value, and otherwise takes the snake_case one. */
  lemma AliasValue(j: Json, t: seq<Alias>, a: Alias)
    requires Fit(t) && j.Obj? && a in t
    ensures a.camel != MESSAGE_ID ==> Get(Normal(j, t), a.camel) == GetEither(j, a.camel, a.snake)
    ensures a.camel == MESSAGE_ID ==> Get(Normal(j, t), a.camel) == TextIds(GetEither(j, a.camel, a.snake))
  {
    MergeAllResolves(j.fields, t);
    assert Named(t, a.camel);
  }

  // ---- decode ----

  const BAD_FIELDS: Error := Error.Protocol("invalid fields")

  /** serde's derived decoding of SendResult: an object by member, an array by position. */
  function ReadSendResult(j: Json): Result<SendResult> {
    match j
    case Obj(m) =>
      if "messageId" in m && "messageSeq" in m && "reasonCode" in m then
        SendResultOf(m["messageId"], m["messageSeq"], m["reasonCode"])
      else Err(BAD_FIELDS)
    case Arr(items) =>
      if |items| == 3 then SendResultOf(items[0], items[1], items[2]) else Err(BAD_FIELDS)
    case _ => Err(BAD_FIELDS)
  }

  function SendResultOf(id: Json, sequence: Json, reason: Json): Result<SendResult> {
    if AsStr(id).Some? && AsU64(sequence).Some? && AsI64(reason).Some? then
      Ok(SendResult(id.s, sequence.n, reason.n))
    else Err(BAD_FIELDS)
  }

  /** Members of ConnectResult other than the reason code default when absent. */
  function ReadConnectResult(j: Json): Result<ConnectResult> {
    match j
    case Obj(m) =>
      if "reasonCode" in m then
        ConnectResultOf(m["reasonCode"], Get(j, "serverKey"), Get(j, "salt"), Get(j, "timeDiff"),
                        Get(j, "serverVersion"), Get(j, "nodeId"))
      else Err(BAD_FIELDS)
    case Arr(items) =>
      if 1 <= |items| <= 6 then
        ConnectResultOf(items[0], At(items, 1), At(items, 2), At(items, 3), At(items, 4), At(items, 5))
      else Err(BAD_FIELDS)
    case _ => Err(BAD_FIELDS)
  }

  function At(items: seq<Json>, i: nat): Option<Json> {
    if i < |items| then Some(items[i]) else None
  }

  function ConnectResultOf(reason: Json, key: Option<Json>, salt: Option<Json>, diff: Option<Json>,
                           version: Option<Json>, node: Option<Json>): Result<ConnectResult> {
    var k := key.GetOr(Str(""));
    var s := salt.GetOr(Str(""));
    var d := diff.GetOr(Int(0));
    var v := version.GetOr(Int(0));
    var n := node.GetOr(Int(0));
    if AsI64(reason).Some? && AsStr(k).Some? && AsStr(s).Some? && AsI64(d).Some? && AsU32(v).Some? && AsU64(n).Some? then
      Ok(ConnectResult(reason.n, k.s, s.s, d.n, v.n, n.n))
    else Err(BAD_FIELDS)
  }

  function DecodeSend(j: Json): Result<SendResult> {
    ReadSendResult(Normal(j, TABLE))
  }

  function DecodeConnect(j: Json): Result<ConnectResult> {
    ReadConnectResult(Normal(j, TABLE))
  }

  // ---- response ----

  /** Exactly one of `result` and `error`; a result's reason code, where visible, must be 1. */
  function Response(value: Json): Result<Json> {
    match (Get(value, "result"), Get(value, "error"))
    case (Some(result), None) =>
      (match GetEither(result, "reasonCode", "reason_code")
       case None => Ok(result)
       case Some(code) =>
         match AsI64(code)
         case None => Err(Error.Protocol("invalid reason code"))
         case Some(n) => if n != 1 then Err(Server(n)) else Ok(result))
    case (None, Some(error)) =>
      (match Get(error, "code")
       case None => Err(Error.Protocol("invalid RPC error"))
       case Some(code) =>
         match AsI64(code)
         case None => Err(Error.Protocol("invalid RPC error"))
         case Some(n) => Err(Server(n)))
    case _ => Err(Error.Protocol("expected exactly one result or error"))
  }

  function SendReply(value: Json): Result<SendResult> {
    match Response(value)
    case Ok(result) => DecodeSend(result)
    case Err(e) => Err(e)
  }

  function ConnectReply(value: Json): Result<ConnectResult> {
    match Response(value)
    case Ok(result) => DecodeConnect(result)
    case Err(e) => Err(e)
  }

  /** The raw reason lookup and the decoder agree on objects, whichever spelling or both are present. */
  lemma ReasonLookupAgrees(result: Json)
    requires result.Obj?
    ensures Get(Normal(result, TABLE), "reasonCode") == GetEither(result, "reasonCode", "reason_code")
  {
    TableFit();
    ReasonCodeAliased();
    assert |"reasonCode"| == 10 && |MESSAGE_ID| == 9;
    AliasValue(result, TABLE, Alias("reason_code", "reasonCode"));
  }

  /** A positional array hides its reason code from the lookup. */
  predicate HidesFailure(result: Json, position: nat) {
    result.Arr? && position < |result.items| && result.items[position] != Int(1)
  }

  /** An accepted SEND reply carries reason 1, except exactly when it is a positional array saying otherwise. */
  lemma AcceptedSendIff(value: Json)
    requires SendReply(value).Ok?
    ensures Get(value, "result").Some?
    ensures SendReply(value).value.reasonCode == 1 <==> !HidesFailure(Get(value, "result").value, 2)
  {
    var result := Get(value, "result").value;
    if result.Obj? {
      ReasonLookupAgrees(result);
    }
  }

  lemma AcceptedConnectIff(value: Json)
    requires ConnectReply(value).Ok?
    ensures Get(value, "result").Some?
    ensures ConnectReply(value).value.reasonCode == 1 <==> !HidesFailure(Get(value, "result").value, 0)
  {
    var result := Get(value, "result").value;
    if result.Obj? {
      ReasonLookupAgrees(result);
    }
  }

  /** The exception is real: reason 7 in third position is reported as an accepted SEND. */
  lemma PositionalFailureAccepted()
    ensures SendReply(Obj(map["result" := Arr([Str("m"), Int(5), Int(7)])])) == Ok(SendResult("m", 5, 7))
  {
    var result := Arr([Str("m"), Int(5), Int(7)]);
    var value := Obj(map["result" := result]);
    assert "error" != "result" by {
      assert |"error"| == 5 && |"result"| == 6;
    }
    assert Get(value, "error") == None;
    assert Response(value) == Ok(result);
  }

  /** So is authentication: reason 7 in first position is reported as connected. */
  lemma PositionalRejectionConnects()
    ensures ConnectReply(Obj(map["result" := Arr([Int(7)])])) == Ok(ConnectResult(7, "", "", 0, 0, 0))
  {
    var result := Arr([Int(7)]);
    var value := Obj(map["result" := result]);
    assert "error" != "result" by {
      assert |"error"| == 5 && |"result"| == 6;
    }
    assert Get(value, "error") == None;
    assert Response(value) == Ok(result);
  }

  /** Conversely an object with both spellings is judged and decoded by the camelCase one. */
  lemma RejectedSendNeverDecodes(value: Json, code: int)
    requires Get(value, "result").Some? && Get(value, "result").value.Obj?
    requires DecodeSend(Get(value, "result").value).Ok?
    requires DecodeSend(Get(value, "result").value).value.reasonCode == code != 1
    requires Get(value, "error").None?
    ensures Response(value) == Err(Server(code))
  {
    ReasonLookupAgrees(Get(value, "result").value);
  }
}
