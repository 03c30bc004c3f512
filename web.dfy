/** What the handlers exchange with the outside: browser `File`s, the outcome of one
    `fetch`, and the response a handler answers with. The network, the file system
    and `JSON.parse` are not modelled; their results are inputs. */
module Web {
  import opened Js

  /** A browser `File`: its name, its declared media type (`""` when unknown) and its
      size in bytes. */
  datatype File = File(name: string, mimeType: string, size: nat)

  /** The body of a remote response as read by `response.text()`; reading the stream
      can fail. */
  datatype Body = Text(text: string) | Unreadable(message: string)

  /** What `JSON.parse` makes of a text: a value, or the message of its SyntaxError. */
  datatype Decoded = Json(value: Value) | NotJson(message: string)

  /** A status for which `response.ok` is false. */
  type NotOkStatus = s: nat | !(200 <= s < 300) witness 500

  /** The outcome of one `fetch`: it threw, it answered with a status outside 200-299,
      or it answered ok. */
  datatype Remote =
    | NetworkError(message: string)
    | HttpNotOk(status: NotOkStatus, statusText: string, body: Body)
    | Ok(body: Body)

  /** A handler's answer: status, the headers it sets itself, and the JSON value it
      serialises. */
  datatype Response = Response(status: nat, headers: map<string, string>, body: Value)

  /** The request a handler sends to the remote service. */
  datatype Outbound = Outbound(url: string, payload: Value)

  /** One run of a handler: the remote request it made, if it got that far, and its
      answer. */
  datatype Handled = Handled(outbound: Option<Outbound>, response: Response)

  /** `await response.json()`: read the body, then parse it; either step may throw. */
  function ReadJson(body: Body, parse: string -> Decoded): (r: Completion<Value>)
    ensures body.Unreadable? ==> r == Throw(body.message)
    ensures body.Text? ==> (r.Normal? <==> parse(body.text).Json?)
    ensures body.Text? && parse(body.text).Json? ==> r.value == parse(body.text).value
    ensures body.Text? && parse(body.text).NotJson? ==> r.message == parse(body.text).message
  {
    match body
    case Unreadable(m) => Throw(m)
    case Text(t) =>
      match parse(t)
      case NotJson(m) => Throw(m)
      case Json(v) => Normal(v)
  }

  const JsonHeaders: map<string, string> := map["Content-Type" := "application/json"]

  /** `{ error: 'Failed to process image', message: message || 'Unknown error' }` */
  function ProcessingFailure(status: nat, headers: map<string, string>, message: string): Response
  {
    Response(status, headers, Obj(map["error" := Str("Failed to process image"), "message" := Str(OrString(message, "Unknown error"))]))
  }

  /** `{ error: ... }` */
  function ErrorBody(message: string): Value
  {
    Obj(map["error" := Str(message)])
  }

  /** `{ label, confidence }`, the entry of a canned object list. */
  function Labelled(tag: string, confidence: real): Value
  {
    Obj(map["label" := Str(tag), "confidence" := Num(confidence)])
  }
}
