/**
  The command gateway behind `POST /api/control`: the requested action is checked
  against the allow-list `open`, `close`; an allowed action is published once,
  as is, on the control topic and confirmed, anything else is refused with a 400
  reply and nothing is published.
 */
module Control {
  import opened JsString
  import opened Topics

  const AllowedActions: seq<string> := ["open", "close"]

  /** The refusal text of a 400 reply. */
  const InvalidCommand: string := "잘못된 명령어입니다."

  /** The JSON body of a reply: `{status: …}` or `{error: …}`. */
  datatype Body = StatusBody(status: string) | ErrorBody(error: string)

  datatype Response = Response(code: int, body: Body)

  /**
    `['open', 'close'].includes(action)`. The request's `action` is `None` when the
    body has no such property or it is not a string: `includes` compares with
    SameValueZero, so no other JSON value can match.
   */
  predicate Allowed(action: Option<string>)
    ensures Allowed(action) <==> action == Some("open") || action == Some("close")
  {
    action.Some? && action.value in AllowedActions
  }

  /** The confirmation text for a published action. */
  function Confirmation(action: string): (t: string)
    ensures |t| == |action| + 11
    ensures t[..4] == "명령 '" && t[4..4 + |action|] == action
    ensures t[4 + |action|..] == "' 전송 완료"
  {
    "명령 '" + action + "' 전송 완료"
  }

  /** The reply to a control request. */
  function Reply(action: Option<string>): (r: Response)
    ensures r.code == 200 <==> action == Some("open") || action == Some("close")
    ensures r.code == 200 || r.code == 400
    ensures r.code == 200 ==> r.body == StatusBody(Confirmation(action.value))
    ensures r.code == 400 ==> r.body == ErrorBody(InvalidCommand)
  {
    if Allowed(action) then Response(200, StatusBody(Confirmation(action.value)))
    else Response(400, ErrorBody(InvalidCommand))
  }

  /** The messages a control request hands to the bus client, in order. */
  function Publishes(action: Option<string>): (out: seq<Message>)
    ensures |out| <= 1
    ensures |out| == 1 <==> action == Some("open") || action == Some("close")
    ensures forall i :: 0 <= i < |out| ==>
      out[i].topic == "mykmou/window25/control" && Some(out[i].payload) == action
  {
    if Allowed(action) then [Message(ControlTopic, action.value)] else []
  }

  /** A request is confirmed exactly when it publishes, and it never publishes twice. */
  lemma ReplyMatchesPublishes(action: Option<string>)
    ensures Reply(action).code == 200 <==> |Publishes(action)| == 1
    ensures Reply(action).code == 400 <==> Publishes(action) == []
  {
  }
}
