/** The App-Router endpoint `/api/hugging-face`: it takes the first file of a form
    upload, sends it as a data URL to a hosted captioning model and wraps the caption
    in `{ results: [record] }`, answering with a fixed mock record when the model
    answers with an error status. */
module HuggingFaceRoute {
  import opened Js
  import opened Web

  const ModelUrl := "https://api-inference.huggingface.co/models/Salesforce/blip-image-captioning-large"

  /** One value of the form: a file or a plain text field. */
  datatype FormEntry = FileEntry(file: File) | TextEntry(text: string)

  /** `request.formData()`: the entries in iteration order, or the error it threw. */
  datatype FormData = FormData(entries: seq<(string, FormEntry)>) | FormDataError(message: string)

  /** Reading the file's bytes and base64-encoding them, or the error that threw. */
  datatype Encoding = Encoded(base64: string) | EncodingError(message: string)

  /** The first file of the form in iteration order. */
  function FirstFileOf(entries: seq<(string, FormEntry)>): (f: Option<File>)
    ensures f.None? <==> forall i :: 0 <= i < |entries| ==> !entries[i].1.FileEntry?
    ensures f.Some? ==>
      exists i :: 0 <= i < |entries| && entries[i].1 == FileEntry(f.value) &&
                  forall j :: 0 <= j < i ==> !entries[j].1.FileEntry?
    decreases |entries|
  {
    if entries == [] then None
    else if entries[0].1.FileEntry? then Some(entries[0].1.file)
    else
      var f := FirstFileOf(entries[1..]);
      assert forall i :: 1 <= i < |entries| ==> entries[i] == entries[1..][i - 1];
      f
  }

  /** The `for...of` loop over the form's entries that stops at the first file. */
  method FirstFile(entries: seq<(string, FormEntry)>) returns (file: Option<File>)
    ensures file == FirstFileOf(entries)
  {
    file := None;
    var i := 0;
    while i < |entries|
      invariant 0 <= i <= |entries|
      invariant FirstFileOf(entries[i..]) == FirstFileOf(entries)
    {
      if entries[i].1.FileEntry? {
        file := Some(entries[i].1.file);
        break;
      }
      assert entries[i..][1..] == entries[i + 1..];
      i := i + 1;
    }
  }

  /** `imageFile.type || 'image/jpeg'`: the declared media type, or JPEG when the
      browser declared none. */
  function MimeType(file: File): (m: string)
    ensures m != ""
    ensures file.mimeType != "" ==> m == file.mimeType
    ensures file.mimeType == "" ==> m == "image/jpeg"
  {
    OrString(file.mimeType, "image/jpeg")
  }

  const Scheme := "data:"
  const Marker := ";base64,"

  /** `data:<mime>;base64,<data>` */
  function DataUrl(mime: string, base64: string): (url: string)
    ensures Scheme <= url
    ensures |url| == |Scheme| + |mime| + |Marker| + |base64|
    ensures url[|Scheme|..|Scheme| + |mime|] == mime
    ensures url[|url| - |base64|..] == base64
  {
    Scheme + (mime + (Marker + base64))
  }

  /** The index of the first `c` in `s`, if any. */
  function IndexOf(s: string, c: char): (r: Option<nat>)
    ensures r.None? <==> c !in s
    ensures r.Some? ==> r.value < |s| && s[r.value] == c && c !in s[..r.value]
    decreases |s|
  {
    if s == [] then None
    else if s[0] == c then Some(0)
    else
      var r := IndexOf(s[1..], c);
      if r.None? then None else
        assert s[..r.value + 1] == [s[0]] + s[1..][..r.value];
        Some(r.value + 1)
  }

  /** `s` with the prefix `p` removed, if it starts with it. */
  function After(s: string, p: string): Option<string>
  {
    if |p| <= |s| && s[..|p|] == p then Some(s[|p|..]) else None
  }

  lemma AfterConcat(p: string, rest: string)
    ensures After(p + rest, p) == Some(rest)
  {
    assert (p + rest)[..|p|] == p;
    assert (p + rest)[|p|..] == rest;
  }

  /** Reads a data URL back into its media type and its base64 payload. */
  function SplitDataUrl(url: string): Option<(string, string)>
  {
    match After(url, Scheme)
    case None => None
    case Some(rest) =>
      match IndexOf(rest, ';')
      case None => None
      case Some(k) =>
        match After(rest[k..], Marker)
        case None => None
        case Some(payload) => Some((rest[..k], payload))
  }

  /** The data URL keeps both its parts: a media type without `;` and any payload can be
      read back from it. */
  lemma {:induction false} DataUrlRoundTrip(mime: string, base64: string)
    requires ';' !in mime
    ensures SplitDataUrl(DataUrl(mime, base64)) == Some((mime, base64))
  {
    var tail := Marker + base64;
    var rest := mime + tail;
    AfterConcat(Scheme, rest);
    IndexOfPast(mime, tail, ';');
    assert rest[|mime|..] == tail && rest[..|mime|] == mime;
    AfterConcat(Marker, base64);
  }

  /** The first `c` of `a + b` is that of `b`, shifted, when `a` has none. */
  lemma {:induction false} IndexOfPast(a: string, b: string, c: char)
    requires c !in a && |b| > 0 && b[0] == c
    ensures IndexOf(a + b, c) == Some(|a|)
    decreases |a|
  {
    if a == [] {
      assert a + b == b;
    } else {
      assert (a + b)[1..] == a[1..] + b;
      IndexOfPast(a[1..], b, c);
    }
  }

  /** The two objects every answer built from the model's caption lists. */
  const FixedObjects: Value := Arr([Labelled("Person", 0.95), Labelled("Building", 0.85)])

  /** The canned answer for an error status. */
  const MockResponse: Response := Response(200,
    map["Content-Type" := "application/json", "X-Mock-Response" := "true"],
    Obj(map["results" := Arr([Obj(map[
      "id" := Str("1"),
      "objects" := Arr([Labelled("Person", 0.95), Labelled("Building", 0.85), Labelled("Tree", 0.78)]),
      "caption" := Str("A person standing in front of a building with trees nearby"),
      "text_detected" := Bool(false)])])]))

  const SuccessHeaders: map<string, string> := map[
    "Content-Type" := "application/json",
    "Cache-Control" := "no-cache, no-store, must-revalidate"]

  /** The caption: element 0 when the model answers with an array, the whole answer
      otherwise. */
  function Caption(data: Value): (c: Value)
    ensures data.Arr? && |data.items| > 0 ==> c == data.items[0]
    ensures data.Arr? && |data.items| == 0 ==> c == Undefined
    ensures !data.Arr? ==> c == data
  {
    if data.Arr? then At(data, 0).value else data
  }

  /** `{ results: [record] }` around the model's caption. */
  function CaptionBody(caption: Value): Value
  {
    Obj(map["results" := Arr([Obj(map[
      "id" := Str("1"),
      "objects" := FixedObjects,
      "caption" := caption,
      "text_detected" := Bool(false)])])])
  }

  /** The answer built from the model's outcome: the canned answer, flagged by a header,
      for an error status; the caption for an ok JSON answer; a 500 for anything that
      threw. */
  function Reply(remote: Remote, parse: string -> Decoded): (r: Response)
    ensures r.status in {200, 500}
    ensures "X-Mock-Response" in r.headers <==> remote.HttpNotOk? && remote.body.Text?
    ensures remote.HttpNotOk? && remote.body.Text? ==> r == MockResponse
    ensures remote.Ok? && ReadJson(remote.body, parse).Normal? ==>
      r == Response(200, SuccessHeaders, CaptionBody(Caption(ReadJson(remote.body, parse).value)))
    ensures r.status == 200 && !remote.HttpNotOk? ==>
      remote.Ok? && ReadJson(remote.body, parse).Normal? &&
      r == Response(200, SuccessHeaders, CaptionBody(Caption(ReadJson(remote.body, parse).value)))
    ensures remote.NetworkError? ==> r == ProcessingFailure(500, JsonHeaders, remote.message)
    ensures remote.HttpNotOk? && remote.body.Unreadable? ==>
      r == ProcessingFailure(500, JsonHeaders, remote.body.message)
    ensures remote.Ok? && ReadJson(remote.body, parse).Throw? ==>
      r == ProcessingFailure(500, JsonHeaders, ReadJson(remote.body, parse).message)
  {
    match remote
    case NetworkError(m) => ProcessingFailure(500, JsonHeaders, m)
    case HttpNotOk(_, _, body) =>
      if body.Unreadable? then ProcessingFailure(500, JsonHeaders, body.message) else MockResponse
    case Ok(body) =>
      match ReadJson(body, parse)
      case Throw(m) => ProcessingFailure(500, JsonHeaders, m)
      case Normal(data) => Response(200, SuccessHeaders, CaptionBody(Caption(data)))
  }

  /** Everything after the file is chosen. */
  function Respond(file: File, encoding: Encoding, remote: Remote, parse: string -> Decoded): (h: Handled)
    ensures encoding.EncodingError? ==> h == Handled(None, ProcessingFailure(500, JsonHeaders, encoding.message))
    ensures encoding.Encoded? ==>
      h.outbound == Some(Outbound(ModelUrl, Obj(map["inputs" := Str(DataUrl(MimeType(file), encoding.base64))])))
    ensures encoding.Encoded? ==> h.response == Reply(remote, parse)
  {
    match encoding
    case EncodingError(m) => Handled(None, ProcessingFailure(500, JsonHeaders, m))
    case Encoded(base64) =>
      Handled(Some(Outbound(ModelUrl, Obj(map["inputs" := Str(DataUrl(MimeType(file), base64))]))), Reply(remote, parse))
  }

  /** The handler. */
  method Post(form: FormData, encoding: Encoding, remote: Remote, parse: string -> Decoded) returns (h: Handled)
    ensures form.FormDataError? ==> h == Handled(None, ProcessingFailure(500, JsonHeaders, form.message))
    ensures form.FormData? && FirstFileOf(form.entries).None? ==>
      h == Handled(None, Response(400, JsonHeaders, ErrorBody("No image file provided")))
    ensures form.FormData? && FirstFileOf(form.entries).Some? ==>
      h == Respond(FirstFileOf(form.entries).value, encoding, remote, parse)
  {
    match form
    case FormDataError(m) =>
      return Handled(None, ProcessingFailure(500, JsonHeaders, m));
    case FormData(entries) =>
      var file := FirstFile(entries);
      if file.None? {
        return Handled(None, Response(400, JsonHeaders, ErrorBody("No image file provided")));
      }
      h := Respond(file.value, encoding, remote, parse);
  }
}
