/** The Pages-Router endpoint `/api/direct-api`: it takes one uploaded image, relays it
    base64-encoded to the analysis Space and answers with `{ results: [record] }`,
    substituting a fixed mock record whenever the Space fails or answers in a shape it
    does not recognise. */
module DirectApi {
  import opened Js
  import opened Web

  const SpaceUrl := "https://dolvido-smart-image-insights.hf.space"

  /** An uploaded file as the multipart parser describes it; `None` is a missing
      property. */
  datatype UploadedFile = UploadedFile(filepath: Option<string>, originalFilename: Option<string>)

  /** One entry of the parser's `files` object: a single file, or an array of files,
      depending on the parser's version. */
  datatype FileField = One(file: UploadedFile) | Many(files: seq<UploadedFile>)

  /** The result of parsing the multipart request: the `files` entries in
      `Object.keys` order, or the parser's error. */
  datatype Form = Form(files: seq<(string, FileField)>) | FormError(message: string)

  /** Reading the stored upload from disk and base64-encoding it. */
  datatype Disk = Loaded(base64: string) | DiskError(message: string)

  const MockCaption := "A person standing next to a building with a car parked nearby"

  /** The record substituted for the Space's answer. */
  const MockRecord: Value := Obj(map[
    "id" := Str("1"),
    "objects" := Arr([Labelled("person", 0.95), Labelled("building", 0.87), Labelled("car", 0.82)]),
    "caption" := Str(MockCaption),
    "text_detected" := Bool(false)])

  /** The fallback body, flagged `mock: true`, with the failure's detail when there is one. */
  function MockBody(error: Option<string>): (body: Value)
    ensures IsResultsBody(body) && IsMock(body)
    ensures body.fields["results"] == Arr([MockRecord])
    ensures "error" in body.fields <==> error.Some?
  {
    var fields := map["results" := Arr([MockRecord]), "mock" := Bool(true)];
    Obj(if error.Some? then fields["error" := Str(error.value)] else fields)
  }

  /** The canonical record: a truthy `id`, an `objects` array, a truthy `caption` and a
      `text_detected` that is truthy or `false`. */
  predicate IsAnalysisRecord(v: Value)
  {
    && v.Obj?
    && v.fields.Keys == {"id", "objects", "caption", "text_detected"}
    && Truthy(v.fields["id"])
    && v.fields["objects"].Arr?
    && Truthy(v.fields["caption"])
    && (Truthy(v.fields["text_detected"]) || v.fields["text_detected"] == Bool(false))
  }

  /** `{ results: [record], ... }` with exactly one canonical record. */
  predicate IsResultsBody(v: Value)
  {
    && v.Obj?
    && "results" in v.fields
    && v.fields["results"].Arr?
    && |v.fields["results"].items| == 1
    && IsAnalysisRecord(v.fields["results"].items[0])
  }

  predicate IsMock(v: Value)
  {
    v.Obj? && "mock" in v.fields && v.fields["mock"] == Bool(true)
  }

  /** The record built from the Space's first result, each field taking its default when
      the Space's value is falsy; reading a field of a null result throws. */
  function Canonicalise(result: Value): (r: Completion<Value>)
    ensures r.Throw? <==> Nullish(result)
    ensures r.Normal? ==> IsAnalysisRecord(r.value)
    ensures r.Normal? ==> var id := Member(result, "id");
      r.value.fields["id"] == if Truthy(id) then id else Str("1")
    ensures r.Normal? ==> var objects := Member(result, "objects");
      r.value.fields["objects"] == if objects.Arr? then objects else Arr([])
    ensures r.Normal? ==> var caption := Member(result, "caption");
      r.value.fields["caption"] == if Truthy(caption) then caption else Str("Image analysis complete")
    ensures r.Normal? ==> var detected := Member(result, "text_detected");
      r.value.fields["text_detected"] == if Truthy(detected) then detected else Bool(false)
  {
    match Get(result, "id")
    case Throw(m) => Throw(m)
    case Normal(id) =>
      var objects := Member(result, "objects");
      Normal(Obj(map[
        "id" := Or(id, Str("1")),
        "objects" := if objects.Arr? then objects else Arr([]),
        "caption" := Or(Member(result, "caption"), Str("Image analysis complete")),
        "text_detected" := Or(Member(result, "text_detected"), Bool(false))]))
  }

  /** The Space's parsed answer, when it answered ok and its body is JSON. */
  function ParsedAnswer(remote: Remote, parse: string -> Decoded): Option<Value>
  {
    if remote.Ok? && ReadJson(remote.body, parse).Normal? then Some(ReadJson(remote.body, parse).value) else None
  }

  /** Element 0 of the answer's `results`, when that is a non-empty array. */
  function FirstResult(data: Value): Option<Value>
    requires !Nullish(data)
  {
    var results := Member(data, "results");
    if results.Arr? && |results.items| > 0 then Some(results.items[0]) else None
  }

  /** The body made from the Space's parsed ok answer. */
  function FromAnswer(data: Value): (body: Value)
    ensures IsResultsBody(body)
    ensures Nullish(data) ==> body == MockBody(Some(NullReadMessage(data, "results")))
    ensures !Nullish(data) && FirstResult(data).None? ==> body == MockBody(None)
    ensures !Nullish(data) && FirstResult(data).Some? && Nullish(FirstResult(data).value) ==>
      body == MockBody(Some(NullReadMessage(FirstResult(data).value, "id")))
    ensures !Nullish(data) && FirstResult(data).Some? && !Nullish(FirstResult(data).value) ==>
      body == Obj(map["results" := Arr([Canonicalise(FirstResult(data).value).value])])
  {
    match Get(data, "results")
    case Throw(m) => MockBody(Some(m))
    case Normal(results) =>
      if Truthy(results) && results.Arr? && |results.items| > 0 then
        match Canonicalise(results.items[0])
        case Throw(m) => MockBody(Some(m))
        case Normal(record) => Obj(map["results" := Arr([record])])
      else
        MockBody(None)
  }

  /** The answer of the inner `try`: the Space's outcome turned into a body. */
  function Normalise(remote: Remote, parse: string -> Decoded): (body: Value)
    ensures IsResultsBody(body)
    ensures IsMock(body) ==> body.fields["results"] == Arr([MockRecord])
    ensures remote.NetworkError? ==> body == MockBody(Some(remote.message))
    ensures remote.HttpNotOk? ==>
      body == MockBody(Some(if remote.body.Text? then remote.body.text else "Unknown error"))
    ensures !IsMock(body) <==>
      var data := ParsedAnswer(remote, parse);
      data.Some? && !Nullish(data.value) && FirstResult(data.value).Some? && !Nullish(FirstResult(data.value).value)
    ensures !IsMock(body) ==>
      body == Obj(map["results" := Arr([Canonicalise(FirstResult(ParsedAnswer(remote, parse).value).value).value])])
    ensures remote.Ok? && ReadJson(remote.body, parse).Throw? ==>
      body == MockBody(Some(ReadJson(remote.body, parse).message))
    ensures ParsedAnswer(remote, parse).Some? && Nullish(ParsedAnswer(remote, parse).value) ==>
      body == MockBody(Some(NullReadMessage(ParsedAnswer(remote, parse).value, "results")))
    ensures (var data := ParsedAnswer(remote, parse);
             data.Some? && !Nullish(data.value) && FirstResult(data.value).Some? && Nullish(FirstResult(data.value).value)) ==>
      body == MockBody(Some(NullReadMessage(FirstResult(ParsedAnswer(remote, parse).value).value, "id")))
    ensures (var data := ParsedAnswer(remote, parse);
             data.Some? && !Nullish(data.value) && FirstResult(data.value).None?) ==> body == MockBody(None)
    ensures IsMock(body) && "error" !in body.fields <==>
      var data := ParsedAnswer(remote, parse);
      data.Some? && !Nullish(data.value) && FirstResult(data.value).None?
  {
    match remote
    case NetworkError(m) => MockBody(Some(m))
    case HttpNotOk(_, _, b) => MockBody(Some(if b.Text? then b.text else "Unknown error"))
    case Ok(b) =>
      match ReadJson(b, parse)
      case Throw(m) => MockBody(Some(m))
      case Normal(data) => FromAnswer(data)
  }

  /** The file the handler processes: the first key's entry, or element 0 of it when it
      is an array; `None` is the `undefined` of an empty array. */
  function SelectFile(files: seq<(string, FileField)>): (f: Option<UploadedFile>)
    requires |files| > 0
    ensures files[0].1.One? ==> f == Some(files[0].1.file)
    ensures files[0].1.Many? && |files[0].1.files| > 0 ==> f == Some(files[0].1.files[0])
    ensures f.None? <==> files[0].1 == Many([])
  {
    match files[0].1
    case One(f) => Some(f)
    case Many(fs) => if |fs| > 0 then Some(fs[0]) else None
  }

  /** `s || d` for a string property that may be missing. */
  function OrDefault(s: Option<string>, d: string): (r: string)
    ensures s.Some? && s.value != "" ==> r == s.value
    ensures s.None? || s.value == "" ==> r == d
  {
    if s.Some? then OrString(s.value, d) else d
  }

  /** The handler. `health` is the outcome of the advisory health probe. */
  function Handle(verb: string, form: Form, disk: Disk, health: Remote, remote: Remote, parse: string -> Decoded): (h: Handled)
    ensures verb != "POST" ==> h == Handled(None, Response(405, map[], ErrorBody("Method not allowed")))
    ensures verb == "POST" && form.FormError? ==>
      h == Handled(None, ProcessingFailure(500, map[], form.message))
    ensures verb == "POST" && form.Form? && |form.files| == 0 ==>
      h == Handled(None, Response(400, map[], ErrorBody("No file uploaded")))
    ensures verb == "POST" && form.Form? && |form.files| > 0 && SelectFile(form.files).None? ==>
      h == Handled(None, ProcessingFailure(500, map[], NullReadMessage(Undefined, "filepath")))
    ensures (verb == "POST" && form.Form? && |form.files| > 0 && SelectFile(form.files).Some? &&
             OrDefault(SelectFile(form.files).value.filepath, "") == "") ==>
      h == Handled(None, ProcessingFailure(500, map[], "File path is undefined"))
    ensures h.outbound.Some? <==>
      (verb == "POST" && form.Form? && |form.files| > 0 && SelectFile(form.files).Some? &&
       OrDefault(SelectFile(form.files).value.filepath, "") != "" && disk.Loaded?)
    ensures h.outbound.Some? ==>
      h.outbound.value == Outbound(SpaceUrl + "/analyze-base64", Obj(map[
        "image" := Str(disk.base64),
        "filename" := Str(OrDefault(SelectFile(form.files).value.originalFilename, "image.jpg"))]))
    ensures (verb == "POST" && form.Form? && |form.files| > 0 && SelectFile(form.files).Some? &&
             OrDefault(SelectFile(form.files).value.filepath, "") != "" && disk.DiskError?) ==>
      h == Handled(None, ProcessingFailure(500, map[], disk.message))
    ensures h.outbound.Some? ==> h.response == Response(200, map[], Normalise(remote, parse))
    ensures h.response.status in {200, 400, 405, 500}
    ensures h.response.status == 200 ==> IsResultsBody(h.response.body)
  {
    if verb != "POST" then
      Handled(None, Response(405, map[], ErrorBody("Method not allowed")))
    else
      match form
      case FormError(m) => Handled(None, ProcessingFailure(500, map[], m))
      case Form(files) =>
        if |files| == 0 then
          Handled(None, Response(400, map[], ErrorBody("No file uploaded")))
        else
          match SelectFile(files)
          case None => Handled(None, ProcessingFailure(500, map[], NullReadMessage(Undefined, "filepath")))
          case Some(file) =>
            if OrDefault(file.filepath, "") == "" then
              Handled(None, Response(500, map[], Obj(map[
                "error" := Str("Failed to process image"),
                "message" := Str("File path is undefined")])))
            else
              match disk
              case DiskError(m) => Handled(None, ProcessingFailure(500, map[], m))
              case Loaded(base64) =>
                var payload := Obj(map[
                  "image" := Str(base64),
                  "filename" := Str(OrDefault(file.originalFilename, "image.jpg"))]);
                Handled(Some(Outbound(SpaceUrl + "/analyze-base64", payload)), Response(200, map[], Normalise(remote, parse)))
  }

  /** The health probe is awaited but its outcome is never consulted. This holds because
      `Handle` is given the probe's outcome and does not read it: the lemma records that
      modelling choice rather than proving a property of the handler's logic. */
  lemma HealthProbeIgnored(verb: string, form: Form, disk: Disk, h1: Remote, h2: Remote, remote: Remote, parse: string -> Decoded)
    ensures Handle(verb, form, disk, h1, remote, parse) == Handle(verb, form, disk, h2, remote, parse)
  {
  }

  /** Only element 0 of `results` matters: two answers whose first results agree are
      normalised alike, whatever else they carry. */
  lemma OnlyFirstResultMatters(data1: Value, data2: Value, parse: string -> Decoded, t1: string, t2: string)
    requires parse(t1) == Json(data1) && parse(t2) == Json(data2)
    requires !Nullish(data1) && !Nullish(data2)
    requires FirstResult(data1).Some? && FirstResult(data1) == FirstResult(data2)
    ensures Normalise(Ok(Text(t1)), parse) == Normalise(Ok(Text(t2)), parse)
  {
  }
}
