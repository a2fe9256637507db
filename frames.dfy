/** What the OKX websocket connectors receive: `ws.recv()` yields text
    frames, which the connectors compare with `pong` or hand to `json.loads`. */
module Frames {
  import opened Types

  /** A text frame: the literal `pong`, a JSON document, or text that is
      neither. Once the peer has closed, `ws.recv()` raises instead. */
  datatype Frame = PongText | JsonText(doc: Json) | OtherText

  /** `json.loads` of a frame. */
  function Decode(f: Frame): (r: Result<Json>)
    ensures r.Ok? <==> f.JsonText?
    ensures r.Ok? ==> r.value == f.doc
    ensures r.Err? ==> r.exc == JsonDecodeError
  {
    match f
    case JsonText(doc) => Ok(doc)
    case _ => Err(JsonDecodeError)
  }

  /** `assert data['event'] == 'subscribe'` on the first reply after the topics are sent. */
  function Acknowledged(f: Frame): (r: Outcome)
    ensures r == Completed <==> f.JsonText? && Field(f.doc, "event") == Ok(JStr("subscribe"))
  {
    match Decode(f)
    case Err(e) => Raised(e)
    case Ok(data) =>
      match Field(data, "event")
      case Err(e) => Raised(e)
      case Ok(event) => if event == JStr("subscribe") then Completed else Raised(AssertionError)
  }
}
