/** The App-Router endpoint `/api/analyze` under `app/`: it relays `data[0]` of its JSON
    request to a Gradio Space and reshapes the Space's `data[0]` into
    `{ detections, predictions, text_detection }`. Every failure becomes a 500. */
module AnalyzeRoute {
  import opened Js
  import opened Web

  const PredictUrl := "https://dolvido-smart-image-insights.hf.space/run/predict"

  /** The TypeError V8 raises when `objects` is neither nullish nor an array. */
  const MapNotAFunction := "responseData.data?.[0]?.objects?.map is not a function"

  /** `{ error: message }` with status 500. */
  function Failure(message: string): Response
  {
    Response(500, JsonHeaders, ErrorBody(message))
  }

  /** `{ name: obj.label, confidence: obj.confidence }` */
  function Detection(obj: Value): (r: Completion<Value>)
    ensures r.Throw? <==> Nullish(obj)
    ensures r.Normal? ==> r.value == Obj(map["name" := Member(obj, "label"), "confidence" := Member(obj, "confidence")])
  {
    match Get(obj, "label")
    case Throw(m) => Throw(m)
    case Normal(tag) => Normal(Obj(map["name" := tag, "confidence" := Member(obj, "confidence")]))
  }

  /** `objects.map(...)`: one detection per object, in order; the first null object
      makes the whole map throw. */
  function Detections(objects: seq<Value>): (r: Completion<seq<Value>>)
    ensures r.Normal? <==> forall i :: 0 <= i < |objects| ==> !Nullish(objects[i])
    ensures r.Normal? ==> |r.value| == |objects|
    ensures r.Normal? ==> forall i :: 0 <= i < |objects| ==> Detection(objects[i]) == Normal(r.value[i])
    decreases |objects|
  {
    if objects == [] then Normal([])
    else
      match Detection(objects[0])
      case Throw(m) => Throw(m)
      case Normal(d) =>
        match Detections(objects[1..])
        case Throw(m) => Throw(m)
        case Normal(ds) => Normal([d] + ds)
  }

  /** `data?.[0]?.key`, given `data` */
  function Lookup(data: Value, key: string): (r: Value)
    requires IsName(key)
    ensures Nullish(data) ==> r == Undefined
    ensures data.Arr? && |data.items| > 0 && !Nullish(data.items[0]) ==> r == Member(data.items[0], key)
    ensures data.Arr? && (|data.items| == 0 || Nullish(data.items[0])) ==> r == Undefined
    ensures !Nullish(data) && !Nullish(At(data, 0).value) ==> r == Member(At(data, 0).value, key)
    ensures !Nullish(data) && Nullish(At(data, 0).value) ==> r == Undefined
  {
    if Nullish(data) then Undefined
    else
      var first := At(data, 0).value;
      if Nullish(first) then Undefined else Member(first, key)
  }

  /** The reshaping of the Space's answer. */
  function Transform(answer: Value): (r: Completion<Value>)
    ensures Nullish(answer) ==> r == Throw(NullReadMessage(answer, "data"))
    ensures r.Normal? <==>
      && !Nullish(answer)
      && var objects := Lookup(Member(answer, "data"), "objects");
         Nullish(objects) || (objects.Arr? && forall i :: 0 <= i < |objects.items| ==> !Nullish(objects.items[i]))
    ensures (!Nullish(answer) && !Nullish(Lookup(Member(answer, "data"), "objects")) &&
             !Lookup(Member(answer, "data"), "objects").Arr?) ==> r == Throw(MapNotAFunction)
    ensures r.Normal? ==> var data := Member(answer, "data");
      && r.value.Obj?
      && r.value.fields.Keys == {"detections", "predictions", "text_detection"}
      && r.value.fields["predictions"] == Or(Lookup(data, "predictions"), Arr([]))
      && r.value.fields["text_detection"] == Lookup(data, "text_detection")
    ensures r.Normal? ==> var objects := Lookup(Member(answer, "data"), "objects");
      && (Nullish(objects) ==> r.value.fields["detections"] == Arr([]))
      && (!Nullish(objects) ==> objects.Arr? && r.value.fields["detections"].Arr? &&
                                  Detections(objects.items) == Normal(r.value.fields["detections"].items))
  {
    match Get(answer, "data")
    case Throw(m) => Throw(m)
    case Normal(data) =>
      var objects := Lookup(data, "objects");
      var detections :=
        if Nullish(objects) then Normal(Undefined)
        else if objects.Arr? then
          (match Detections(objects.items)
           case Throw(m) => Throw(m)
           case Normal(ds) => Normal(Arr(ds)))
        else Throw(MapNotAFunction);
      match detections
      case Throw(m) => Throw(m)
      case Normal(ds) =>
        Normal(Obj(map[
          "detections" := Or(ds, Arr([])),
          "predictions" := Or(Lookup(data, "predictions"), Arr([])),
          "text_detection" := Lookup(data, "text_detection")]))
  }

  /** The answer built from the Space's outcome. */
  function Relay(remote: Remote, parse: string -> Decoded): (r: Response)
    ensures r.status in {200, 500}
    ensures remote.HttpNotOk? && remote.body.Text? ==>
      r == Failure("Space API error: " + NatToString(remote.status) + " " + remote.statusText + " - " + remote.body.text)
    ensures remote.NetworkError? ==> r == Failure(remote.message)
    ensures remote.HttpNotOk? && remote.body.Unreadable? ==> r == Failure(remote.body.message)
    ensures remote.Ok? && ReadJson(remote.body, parse).Throw? ==> r == Failure(ReadJson(remote.body, parse).message)
    ensures remote.Ok? && ReadJson(remote.body, parse).Normal? && Transform(ReadJson(remote.body, parse).value).Throw? ==>
      r == Failure(Transform(ReadJson(remote.body, parse).value).message)
    ensures r.status == 200 <==>
      remote.Ok? && ReadJson(remote.body, parse).Normal? && Transform(ReadJson(remote.body, parse).value).Normal?
    ensures r.status == 200 ==> r == Response(200, map[], Transform(ReadJson(remote.body, parse).value).value)
  {
    match remote
    case NetworkError(m) => Failure(m)
    case HttpNotOk(status, statusText, body) =>
      if body.Unreadable? then Failure(body.message)
      else Failure("Space API error: " + NatToString(status) + " " + statusText + " - " + body.text)
    case Ok(body) =>
      match ReadJson(body, parse)
      case Throw(m) => Failure(m)
      case Normal(answer) =>
        match Transform(answer)
        case Throw(m) => Failure(m)
        case Normal(v) => Response(200, map[], v)
  }

  /** The handler; `request` is what `request.json()` made of the incoming body. */
  function Post(request: Decoded, remote: Remote, parse: string -> Decoded): (h: Handled)
    ensures request.NotJson? ==> h == Handled(None, Failure(request.message))
    ensures request.Json? && Nullish(request.value) ==>
      h == Handled(None, Failure(NullReadMessage(request.value, "data")))
    ensures request.Json? && !Nullish(request.value) && Nullish(Member(request.value, "data")) ==>
      h == Handled(None, Failure(NullReadMessage(Member(request.value, "data"), NatToString(0))))
    ensures h.outbound.Some? <==>
      request.Json? && !Nullish(request.value) && !Nullish(Member(request.value, "data"))
    ensures h.outbound.Some? ==>
      var image := At(Member(request.value, "data"), 0).value;
      h == Handled(Some(Outbound(PredictUrl, Obj(map["data" := Arr([image]), "fn_index" := Num(0.0)]))), Relay(remote, parse))
  {
    match request
    case NotJson(m) => Handled(None, Failure(m))
    case Json(body) =>
      match Get(body, "data")
      case Throw(m) => Handled(None, Failure(m))
      case Normal(data) =>
        match At(data, 0)
        case Throw(m) => Handled(None, Failure(m))
        case Normal(image) =>
          Handled(Some(Outbound(PredictUrl, Obj(map["data" := Arr([image]), "fn_index" := Num(0.0)]))), Relay(remote, parse))
  }
}
