/** The image-card gallery of `src/components/ImageAnalysis.tsx`: dropped files become
    cards; analysing a card sends its file to the Space and stores either the Space's
    results, adapted to the card's shape, or fixed mock data with an error message. */
module ImageAnalysis {
  import opened Js
  import opened Web

  /** Appended to every failure message: the card then shows mock data. */
  const MockSuffix := " - Using mock data instead"

  /** The results shown when analysis fails. */
  const MockData: Value := Obj(map[
    "object_detection" := Arr([
      Obj(map["class" := Str("person"), "confidence" := Num(0.95)]),
      Obj(map["class" := Str("car"), "confidence" := Num(0.87)]),
      Obj(map["class" := Str("tree"), "confidence" := Num(0.76)])]),
    "image_classification" := Arr([Obj(map["label" := Str("urban scene"), "confidence" := Num(0.92)])]),
    "text_detection" := Obj(map["text" := Str("A person standing next to a car with trees in the background")])])

  /** One card. `error` and `results` are `None` for `null`. */
  datatype ImageItem = ImageItem(
    id: string,
    file: File,
    preview: string,
    loading: bool,
    error: Option<string>,
    results: Option<Value>)

  /** What analysing a card produced: the results to store, or the message of the error
      that reached the outer `catch`. */
  datatype Analysis = Analysed(data: Value) | Failed(message: string)

  /** `{ class: obj.label || obj.class, confidence: obj.confidence || 0.9 }` */
  function Detected(obj: Value): (r: Value)
    requires !Nullish(obj)
    ensures r.Obj? && r.fields.Keys == {"class", "confidence"}
    ensures Truthy(r.fields["confidence"])
    ensures Truthy(Member(obj, "confidence")) ==> r.fields["confidence"] == Member(obj, "confidence")
    ensures !Truthy(Member(obj, "confidence")) ==> r.fields["confidence"] == Num(0.9)
    ensures Truthy(Member(obj, "label")) ==> r.fields["class"] == Member(obj, "label")
    ensures !Truthy(Member(obj, "label")) ==> r.fields["class"] == Member(obj, "class")
  {
    Obj(map[
      "class" := Or(Member(obj, "label"), Member(obj, "class")),
      "confidence" := Or(Member(obj, "confidence"), Num(0.9))])
  }

  /** `objects.map(...)`, with `None` when a null object makes it throw. */
  function ObjectDetection(objects: seq<Value>): (r: Option<seq<Value>>)
    ensures r.Some? <==> forall i :: 0 <= i < |objects| ==> !Nullish(objects[i])
    ensures r.Some? ==> |r.value| == |objects|
    ensures r.Some? ==> forall i :: 0 <= i < |objects| ==> r.value[i] == Detected(objects[i])
    decreases |objects|
  {
    if objects == [] then Some([])
    else if Nullish(objects[0]) then None
    else
      match ObjectDetection(objects[1..])
      case None => None
      case Some(rest) => Some([Detected(objects[0])] + rest)
  }

  /** The card shape built from the first result: its objects, its caption as the one
      classification, and its caption as the detected text. */
  function Adapted(detections: seq<Value>, caption: Value): (v: Value)
    requires forall d :: d in detections ==> d.Obj? && "confidence" in d.fields && Truthy(d.fields["confidence"])
    ensures IsCardResults(v)
    ensures v.fields["object_detection"] == Arr(detections)
    ensures Truthy(caption) ==>
      v.fields["image_classification"].items[0].fields["label"] == caption &&
      v.fields["text_detection"].fields["text"] == caption
    ensures !Truthy(caption) ==>
      v.fields["image_classification"].items[0].fields["label"] == Str("Unknown") &&
      v.fields["text_detection"].fields["text"] == Str("No text detected")
  {
    Obj(map[
      "object_detection" := Arr(detections),
      "image_classification" := Arr([Obj(map["label" := Or(caption, Str("Unknown")), "confidence" := Num(0.95)])]),
      "text_detection" := Obj(map["text" := Or(caption, Str("No text detected"))])])
  }

  /** The adapted card results: every detected object carries a truthy confidence, the
      one classification has confidence 0.95 and a truthy label, and the detected text is
      truthy, so the card never displays `undefined`. */
  predicate IsCardResults(v: Value)
  {
    && v.Obj?
    && v.fields.Keys == {"object_detection", "image_classification", "text_detection"}
    && v.fields["object_detection"].Arr?
    && (forall d :: d in v.fields["object_detection"].items ==>
          d.Obj? && "confidence" in d.fields && Truthy(d.fields["confidence"]))
    && v.fields["image_classification"].Arr?
    && |v.fields["image_classification"].items| == 1
    && IsClassification(v.fields["image_classification"].items[0])
    && v.fields["text_detection"].Obj?
    && "text" in v.fields["text_detection"].fields
    && Truthy(v.fields["text_detection"].fields["text"])
  }

  predicate IsClassification(c: Value)
  {
    c.Obj? && c.fields.Keys == {"label", "confidence"} && Truthy(c.fields["label"]) && c.fields["confidence"] == Num(0.95)
  }

  /** The transform of the first result; `None` when it throws (a null result, a null
      object, or `objects` with a positive length that is not an array). */
  function Adapt(first: Value): (r: Option<Value>)
    ensures Nullish(first) ==> r.None?
    ensures r.Some? ==> IsCardResults(r.value)
    ensures !Nullish(first) ==> var objects := Member(first, "objects");
      && (!Truthy(objects) || !Positive(Member(objects, "length")) ==> r == Some(Adapted([], Member(first, "caption"))))
      && (Truthy(objects) && Positive(Member(objects, "length")) && !objects.Arr? ==> r.None?)
      && (objects.Arr? && |objects.items| > 0 ==>
            (r.Some? <==> ObjectDetection(objects.items).Some?) &&
            (r.Some? ==> r.value == Adapted(ObjectDetection(objects.items).value, Member(first, "caption"))))
  {
    if Nullish(first) then None
    else
      var objects := Member(first, "objects");
      var detection :=
        if Truthy(objects) && Positive(Member(objects, "length")) then
          (if objects.Arr? then ObjectDetection(objects.items) else None)
        else Some([]);
      match detection
      case None => None
      case Some(ds) => Some(Adapted(ds, Member(first, "caption")))
  }

  /** The body already has the card shape: one of its three fields is truthy. */
  predicate HasCardShape(data: Value)
    requires !Nullish(data)
  {
    Truthy(Member(data, "object_detection")) || Truthy(Member(data, "image_classification")) ||
    Truthy(Member(data, "text_detection"))
  }

  /** The inner `try` after `JSON.parse`: the results to store, or `None` when anything
      in it throws. */
  function Accept(data: Value): (r: Option<Value>)
    ensures !Nullish(data) && HasCardShape(data) ==> r == Some(data)
    ensures !Nullish(data) && !HasCardShape(data) ==>
      var results := Member(data, "results");
      && (!(results.Arr? && |results.items| > 0) ==> r.None?)
      && (results.Arr? && |results.items| > 0 ==> r == Adapt(results.items[0]))
    ensures Nullish(data) ==> r.None?
    ensures r.Some? ==> !Nullish(r.value) && HasCardShape(r.value)
  {
    if Nullish(data) then None
    else if HasCardShape(data) then Some(data)
    else
      var results := Member(data, "results");
      if Truthy(results) && results.Arr? && |results.items| > 0 then Adapt(results.items[0]) else None
  }

  /** The request and everything up to the outer `catch`. */
  function Analyse(remote: Remote, parse: string -> Decoded): (r: Analysis)
    ensures remote.NetworkError? ==> r == Failed(remote.message)
    ensures !remote.NetworkError? && remote.body.Unreadable? ==> r == Failed(remote.body.message)
    ensures remote.HttpNotOk? && remote.body.Text? ==>
      r == Failed("Failed to analyze image (" + NatToString(remote.status) + "): " + Prefix(remote.body.text, 100))
    ensures r.Analysed? ==> remote.Ok? && remote.body.Text? && parse(remote.body.text).Json?
    ensures remote.Ok? && remote.body.Text? ==>
      var t := remote.body.text;
      && (parse(t).NotJson? ==> r == Failed("Invalid JSON response: " + Prefix(t, 100)))
      && (parse(t).Json? && Accept(parse(t).value).None? ==> r == Failed("Invalid JSON response: " + Prefix(t, 100)))
      && (parse(t).Json? && Accept(parse(t).value).Some? ==> r == Analysed(Accept(parse(t).value).value))
  {
    match remote
    case NetworkError(m) => Failed(m)
    case HttpNotOk(status, _, body) =>
      if body.Unreadable? then Failed(body.message)
      else Failed("Failed to analyze image (" + NatToString(status) + "): " + Prefix(body.text, 100))
    case Ok(body) =>
      if body.Unreadable? then Failed(body.message)
      else
        var invalid := Failed("Invalid JSON response: " + Prefix(body.text, 100));
        match parse(body.text)
        case NotJson(_) => invalid
        case Json(data) =>
          match Accept(data)
          case None => invalid
          case Some(results) => Analysed(results)
  }

  /** A freshly dropped card. */
  function Idle(id: string, file: File, preview: string): ImageItem
  {
    ImageItem(id, file, preview, false, None, None)
  }

  /** The cards for a drop: one per file, in drop order. */
  function NewItems(files: seq<File>, ids: seq<string>, previews: seq<string>): (items: seq<ImageItem>)
    requires |ids| == |files| && |previews| == |files|
    ensures |items| == |files|
    ensures forall i :: 0 <= i < |files| ==>
      items[i].file == files[i] && items[i].id == ids[i] && items[i].preview == previews[i] &&
      !items[i].loading && items[i].error.None? && items[i].results.None?
  {
    seq(|files|, i requires 0 <= i < |files| => Idle(ids[i], files[i], previews[i]))
  }

  /** `images.findIndex(img => img.id === id)` */
  function FindIndex(images: seq<ImageItem>, id: string): (k: int)
    ensures -1 <= k < |images|
    ensures k == -1 <==> forall i :: 0 <= i < |images| ==> images[i].id != id
    ensures k >= 0 ==> images[k].id == id && forall i :: 0 <= i < k ==> images[i].id != id
    decreases |images|
  {
    if images == [] then -1
    else if images[0].id == id then 0
    else
      var k := FindIndex(images[1..], id);
      if k == -1 then -1 else k + 1
  }

  /** `images.filter(img => img.id !== id)` */
  function Without(images: seq<ImageItem>, id: string): (r: seq<ImageItem>)
    ensures forall i :: 0 <= i < |r| ==> r[i].id != id
    ensures forall x :: x in images && x.id != id ==> x in r
    ensures forall x :: x in r ==> x in images
    decreases |images|
  {
    if images == [] then []
    else if images[0].id == id then Without(images[1..], id)
    else [images[0]] + Without(images[1..], id)
  }

  /** Filtering distributes over concatenation, so the cards kept stay in their order. */
  lemma {:induction false} WithoutAppend(a: seq<ImageItem>, b: seq<ImageItem>, id: string)
    ensures Without(a + b, id) == Without(a, id) + Without(b, id)
    decreases |a|
  {
    if a == [] {
      assert a + b == b;
    } else {
      assert (a + b)[1..] == a[1..] + b;
      WithoutAppend(a[1..], b, id);
    }
  }

  /** Removing an id no card has changes nothing. */
  lemma {:induction false} WithoutAbsent(images: seq<ImageItem>, id: string)
    requires forall i :: 0 <= i < |images| ==> images[i].id != id
    ensures Without(images, id) == images
    decreases |images|
  {
    if images != [] {
      WithoutAbsent(images[1..], id);
    }
  }

  /** The card after the request settles. */
  function Settle(item: ImageItem, outcome: Analysis): (r: ImageItem)
    ensures r.id == item.id && r.file == item.file && r.preview == item.preview && !r.loading
    ensures outcome.Analysed? ==> r.results == Some(outcome.data) && r.error == item.error
    ensures outcome.Failed? ==>
      r.results == Some(MockData) && r.error == Some(outcome.message + MockSuffix)
  {
    match outcome
    case Analysed(data) => item.(loading := false, results := Some(data))
    case Failed(m) => item.(loading := false, error := Some(m + MockSuffix), results := Some(MockData))
  }

  /** The component's `images` state. */
  class Component {
    var images: seq<ImageItem>

    constructor ()
      ensures images == []
    {
      images := [];
    }

    /** `onDrop`: append one idle card per accepted file. Identifiers and preview URLs
        are generated outside and passed in. */
    method OnDrop(files: seq<File>, ids: seq<string>, previews: seq<string>)
      requires |ids| == |files| && |previews| == |files|
      modifies this
      ensures images == old(images) + NewItems(files, ids, previews)
      ensures files == [] ==> images == old(images)
    {
      if |files| == 0 {
        return;
      }
      images := images + NewItems(files, ids, previews);
    }

    /** The synchronous start of `handleAnalyze`: find the card and mark it loading. */
    method BeginAnalyze(id: string) returns (index: int)
      modifies this
      ensures index == FindIndex(old(images), id)
      ensures index == -1 ==> images == old(images)
      ensures index >= 0 ==>
        images == old(images)[index := old(images)[index].(loading := true, error := None)]
    {
      index := FindIndex(images, id);
      if index == -1 {
        return;
      }
      images := images[index := images[index].(loading := true, error := None)];
    }

    /** The end of `handleAnalyze`: store the outcome in the card at `index`. */
    method FinishAnalyze(index: nat, outcome: Analysis)
      requires index < |images|
      modifies this
      ensures images == old(images)[index := Settle(old(images)[index], outcome)]
    {
      images := images[index := Settle(images[index], outcome)];
    }

    /** `handleAnalyze`, taken as one atomic step. */
    method HandleAnalyze(id: string, remote: Remote, parse: string -> Decoded)
      modifies this
      ensures |images| == |old(images)|
      ensures FindIndex(old(images), id) == -1 ==> images == old(images)
      ensures FindIndex(old(images), id) >= 0 ==> var k := FindIndex(old(images), id);
        && images[k] == Settle(old(images)[k].(loading := true, error := None), Analyse(remote, parse))
        && forall i :: 0 <= i < |images| && i != k ==> images[i] == old(images)[i]
    {
      var index := BeginAnalyze(id);
      if index == -1 {
        return;
      }
      FinishAnalyze(index, Analyse(remote, parse));
    }

    /** `removeImage` */
    method RemoveImage(id: string)
      modifies this
      ensures images == Without(old(images), id)
    {
      images := Without(images, id);
    }
  }
}
