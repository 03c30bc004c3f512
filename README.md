# Smart Image Insights — response normalisation and fallback, in Dafny

Smart Image Insights is a Next.js demo that relays dropped images to a hosted
analysis service (object detection, captioning, text detection) and renders what
comes back. Its only logic beyond relaying is how each API route and UI component
turns the service's answer into the shape it renders, and when it substitutes fixed
mock data instead. The app does this several times, and each copy does it
differently. This project models those copies, plus the two pieces of UI state that
hold the results:

- `DirectApi` (`direct_api.dfy`) models `pages/api/direct-api.js`. It checks the
  method, picks the uploaded file, relays it base64-encoded and reduces the
  service's answer to `{results: [record]}`. It falls back to a fixed three-object
  record flagged `mock: true` on every remote failure and on every unrecognised
  shape.
- `HuggingFaceRoute` (`hugging_face_route.dfy`) models
  `src/app/api/hugging-face/route.js`. A loop finds the first form entry that is a
  file. The route builds the `data:` URL and wraps the model's caption in a fixed
  record. An error status gets a canned answer flagged by the `X-Mock-Response`
  header.
- `AnalyzeRoute` (`analyze_route.dfy`) models `app/api/analyze/route.ts`. It builds
  the Gradio request `{data: [data[0]], fn_index: 0}` and reshapes `data[0]` into
  `{detections, predictions, text_detection}`. Every failure becomes a 500.
- `ImageAnalysis` (`image_analysis.dfy`) models `src/components/ImageAnalysis.tsx`.
  The card list is a class whose `images` sequence is changed by drop, analyse and
  remove. A pure transform adapts the service's first result to the card's
  `object_detection / image_classification / text_detection` shape and falls back to
  `mockData`.
- `ImageUpload` (`image_upload.dfy`) models `src/components/ImageUpload.tsx`. It
  builds one message per rejected file against the 10 MB limit and joins them with
  newlines. Any rejection blocks the drop. Otherwise previews are appended and the
  accepted files are passed on.

Two shared modules hold the vocabulary:

- `Js` (`js.dfy`) holds JavaScript values and the semantics the handlers rely on. It
  covers truthiness and `||`, where `0`, `""`, `false`, `null` and `undefined` fall
  through to the default. It covers property and index reads, which throw a
  TypeError on `null`/`undefined` (V8's wording), `` `${n}` `` for status codes, and
  `substring(0, n)`.
- `Web` (`web.dfy`) holds the inputs and outputs. A `fetch` outcome is
  `NetworkError | HttpNotOk(status, statusText, body) | Ok(body)`. A body is text or
  a read failure. `JSON.parse` is passed in as a function parameter. A handler run
  (`Handled`) is the request it sent out, if any, plus its response.

Confidences are opaque reals: they are only passed through or defaulted.

The design intent behind the code is a single normaliser. It would default a missing
confidence to 0.9 everywhere, and it would answer 500 only for local errors. The code
does not do that, and the model follows the code:

- `pages/api/direct-api.js` passes `objects` through untouched, with no confidence
  default.
- `ImageAnalysis.tsx` replaces a confidence of `0` with 0.9 as well as a missing one.
- `app/api/analyze/route.ts` passes a missing confidence through as `undefined`.
- `src/app/api/hugging-face/route.js` answers 500 for a network error or a non-JSON
  answer.
- In `ImageAnalysis.tsx`, the explicit `Invalid data structure` error is caught by
  the enclosing `catch` and replaced by `Invalid JSON response: …`. So a user never
  sees the first message.

## Model

| member | source | states |
|---|---|---|
| `Js.NatToString` | src/components/ImageAnalysis.tsx:99 | the status is rendered as a non-empty string of decimal digits with no leading zero |
| `Js.NatToStringRoundTrip` | app/api/analyze/route.ts:41 | reading the rendered status back as decimal gives the status itself |
| `Js.Prefix` | src/components/ImageAnalysis.tsx:99 | `substring(0, 100)` is a prefix of the text, of length min(100, length) |
| `Js.OrString` | pages/api/direct-api.js:165 | `message \|\| 'Unknown error'`: a non-empty string is kept, and an empty one gives the default |
| `Web.ReadJson` | app/api/analyze/route.ts:44 | `response.json()` fails with the read error for an unreadable body and with the parser's message for text that is not JSON. Otherwise it gives the parsed value |
| `DirectApi.MockBody` | pages/api/direct-api.js:94-108 | the fallback body is `{results:[MockRecord], mock:true}`, in canonical shape, and carries `error` exactly when a failure detail is given |
| `DirectApi.Canonicalise` | pages/api/direct-api.js:115-126 | the record from `results[0]` throws exactly when that element is null. `id`, `caption` and `text_detected` keep the service's value when it is truthy and otherwise take `'1'`, `'Image analysis complete'` and `false`. `objects` is kept only when it is an array and is `[]` otherwise. The record is always canonical |
| `DirectApi.Normalise` | pages/api/direct-api.js:84-160 | the answer is always one canonical record. It is mock-flagged unless an ok JSON answer has a non-null first element in a non-empty `results` array, and then the record is built from that element alone. A network error yields the mock with `error` set to its message. An error status yields the mock with `error` set to the remote body text, or `Unknown error` when the body cannot be read. A body that cannot be read or parsed yields the mock with that failure's message. A null answer yields the TypeError for reading `results`, and a null first result yields the TypeError for reading `id`. An unrecognised shape yields exactly the mock with no `error` and no other member |
| `DirectApi.FromAnswer` | pages/api/direct-api.js:115-143 | from the parsed answer: a null answer gives the mock with the TypeError for reading `results`. No non-empty `results` array gives exactly the mock without `error`. A null first result gives the mock with the TypeError for reading `id`. Otherwise the body is the one canonical record of `results[0]` |
| `DirectApi.SelectFile` | pages/api/direct-api.js:41-47 | the first key's entry is used. An array entry gives its element 0, and an empty array gives no file (`undefined`) |
| `DirectApi.OrDefault` | pages/api/direct-api.js:78 | `originalFilename \|\| 'image.jpg'`: the name is kept when non-empty and the default is used otherwise |
| `DirectApi.Handle` | pages/api/direct-api.js:18-168 | non-POST yields 405 `Method not allowed` and sends nothing. A form error and a missing file path each yield 500 `Failed to process image` with their message. No file keys yields 400 `No file uploaded`. The first key's entry is used, and element 0 of it when it is an array. A failure to read the stored file yields 500 `Failed to process image` with that failure's message and sends nothing. The request to the service carries the base64 image and the filename with its default. Every 200 answer is canonical |
| `DirectApi.HealthProbeIgnored` | pages/api/direct-api.js:66-68 | the health probe's outcome never changes the handler's result |
| `DirectApi.OnlyFirstResultMatters` | pages/api/direct-api.js:115-116 | two answers whose `results[0]` agree normalise to the same body |
| `HuggingFaceRoute.FirstFileOf` | src/app/api/hugging-face/route.js:11-18 | the selected file is the first file entry in iteration order, and there is none exactly when no entry is a file |
| `HuggingFaceRoute.FirstFile` | src/app/api/hugging-face/route.js:11-18 | the loop that breaks at the first file entry returns exactly that first file |
| `HuggingFaceRoute.MimeType` | src/app/api/hugging-face/route.js:31 | the media type is the file's declared type, or `image/jpeg` when none was declared. It is never empty |
| `HuggingFaceRoute.DataUrl` | src/app/api/hugging-face/route.js:32 | the URL starts with `data:`, holds the media type right after it, ends with the payload and has exactly the length of its parts |
| `HuggingFaceRoute.DataUrlRoundTrip` | src/app/api/hugging-face/route.js:31-32 | `data:<mime>;base64,<data>` can be split back into the media type and the payload |
| `HuggingFaceRoute.Caption` | src/app/api/hugging-face/route.js:88 | the caption is element 0 of a non-empty array answer, `undefined` for an empty array, and the whole answer otherwise |
| `HuggingFaceRoute.Reply` | src/app/api/hugging-face/route.js:47-115 | an error status yields the canned three-object answer at 200, and it is the only answer with `X-Mock-Response`. Every ok JSON answer yields 200 with the no-cache headers and `id '1'`, the fixed two objects, the extracted caption and `text_detected: false`. No other non-error-status outcome yields 200. A network error or an unreadable or unparseable body yields 500 `Failed to process image` with the message |
| `HuggingFaceRoute.Respond` | src/app/api/hugging-face/route.js:27-45 | the request body is `{inputs: "data:" + (type \|\| 'image/jpeg') + ";base64," + data}`. An encoding failure yields 500 and no request |
| `HuggingFaceRoute.Post` | src/app/api/hugging-face/route.js:5-117 | a form error yields 500. No file entry yields 400 `No image file provided`. Otherwise the answer is that for the first file entry |
| `AnalyzeRoute.Detection` | app/api/analyze/route.ts:49-52 | each object becomes `{name: label, confidence: confidence}` with no defaults, and a null object throws |
| `AnalyzeRoute.Detections` | app/api/analyze/route.ts:49-52 | the map succeeds exactly when no object is null. Then it has one detection per object, in order |
| `AnalyzeRoute.Lookup` | app/api/analyze/route.ts:49-54 | `data?.[0]?.key` is `undefined` when `data` or `data[0]` is null or missing. Otherwise it is the property of `data[0]`, for any `data` (an array, an object with a member `"0"`, a string) |
| `AnalyzeRoute.Transform` | app/api/analyze/route.ts:48-55 | the reshaped answer has exactly `detections`, `predictions` and `text_detection`. `detections` is `[]` when `data`, `data[0]` or `objects` is missing and is otherwise the in-order map. `predictions` is `data[0].predictions \|\| []`. `text_detection` is passed through, possibly `undefined`. The reshaping succeeds exactly when the answer is not null and `objects` is missing or an array without null elements. A null answer throws the TypeError for reading `data`, and an `objects` that is neither missing nor an array throws `map is not a function` |
| `AnalyzeRoute.Relay` | app/api/analyze/route.ts:23-72 | the answer is 200 exactly when an ok JSON answer reshapes without throwing. An error status with a readable body yields 500 with `Space API error: <status> <statusText> - <text>`. A network error, an unreadable error body, an ok body that cannot be read or parsed, and a reshaping that throws each yield 500 `{error}` with that error's own message |
| `AnalyzeRoute.Post` | app/api/analyze/route.ts:5-21 | a request is sent exactly when the incoming body is JSON with a non-null `data`. It is `{data: [data[0]], fn_index: 0}` to the Space's predict endpoint. A body that is not JSON yields 500 with the parser's message. A null body yields 500 with the TypeError for reading `data`, and a null `data` yields 500 with the TypeError for reading `0` |
| `ImageAnalysis.Detected` | src/components/ImageAnalysis.tsx:121-124 | `class` is `label` when truthy and `class` otherwise. `confidence` is kept when truthy and is 0.9 otherwise, so 0 also becomes 0.9. The resulting confidence is always truthy |
| `ImageAnalysis.ObjectDetection` | src/components/ImageAnalysis.tsx:120-125 | the map succeeds exactly when no object is null. Then it has one entry per object, in order |
| `ImageAnalysis.Adapted` | src/components/ImageAnalysis.tsx:119-133 | `object_detection` is exactly the mapped objects. The one classification has confidence 0.95 and the label `caption \|\| "Unknown"`. The detected text is `caption \|\| "No text detected"`. So every detection has a truthy confidence, and the label and the text are truthy |
| `ImageAnalysis.Adapt` | src/components/ImageAnalysis.tsx:115-133 | only the first result is used. A falsy or zero-length `objects` gives `object_detection: []`. A non-empty array is mapped in order. A non-array with a positive length, a null result or a null object throws. The classification label defaults to `"Unknown"` and the text to `"No text detected"` |
| `ImageAnalysis.Accept` | src/components/ImageAnalysis.tsx:108-141 | a body with a truthy `object_detection`, `image_classification` or `text_detection` is stored unchanged. Otherwise a non-empty `results` array is adapted from element 0. Anything else, including a null body, is rejected. What is stored always has one of the three fields truthy |
| `ImageAnalysis.Analyse` | src/components/ImageAnalysis.tsx:76-157 | a network error keeps its message. A body that cannot be read, at any status, gives the read error's message. An error status with a readable body gives `Failed to analyze image (<status>): <first 100 chars>`. For an ok answer, a non-JSON body or any rejected shape gives `Invalid JSON response: <first 100 chars>`. Results come only from an ok JSON answer |
| `ImageAnalysis.NewItems` | src/components/ImageAnalysis.tsx:54-61 | one card per dropped file, in drop order, each with its id and preview, not loading, with no error and no results |
| `ImageAnalysis.FindIndex` | src/components/ImageAnalysis.tsx:68-69 | the index of the first card with the id, or -1 exactly when no card has it |
| `ImageAnalysis.Without` | src/components/ImageAnalysis.tsx:184-186 | no remaining card has the id. Every card with another id is kept, and nothing new appears |
| `ImageAnalysis.WithoutAppend` | src/components/ImageAnalysis.tsx:185 | filtering distributes over concatenation, so the kept cards stay in their relative order |
| `ImageAnalysis.WithoutAbsent` | src/components/ImageAnalysis.tsx:185 | removing an id that no card has leaves the list unchanged |
| `ImageAnalysis.Settle` | src/components/ImageAnalysis.tsx:145-179 | the settled card stops loading and keeps its id, file and preview. On success it stores the results. On failure it stores `mockData` with the message plus `" - Using mock data instead"` |
| `ImageAnalysis.Component.constructor` | src/components/ImageAnalysis.tsx:45 | the list starts empty |
| `ImageAnalysis.Component.OnDrop` | src/components/ImageAnalysis.tsx:51-64 | the new cards are appended after the existing ones, which are unchanged. Dropping no files changes nothing |
| `ImageAnalysis.Component.BeginAnalyze` | src/components/ImageAnalysis.tsx:67-74 | an unknown id changes nothing. Otherwise only the found card becomes loading with its error cleared |
| `ImageAnalysis.Component.FinishAnalyze` | src/components/ImageAnalysis.tsx:145-179 | only the card at the index changes, to its settled form |
| `ImageAnalysis.Component.HandleAnalyze` | src/components/ImageAnalysis.tsx:67-182 | the list keeps its length. An unknown id changes nothing. Otherwise only the first card with the id changes, to the settlement of the analysis outcome |
| `ImageAnalysis.Component.RemoveImage` | src/components/ImageAnalysis.tsx:184-186 | the new list is the old one without the cards that have the id |
| `ImageUpload.RejectionMessage` | src/components/ImageUpload.tsx:22-27 | the message is `<name> is too large. Maximum size is 10MB.` exactly when the size exceeds 10·1024·1024 bytes, and `<name> is not a valid image file.` exactly when it does not |
| `ImageUpload.Messages` | src/components/ImageUpload.tsx:22-27 | one message per rejected file, in rejection order |
| `ImageUpload.SplitJoin` | src/components/ImageUpload.tsx:28 | parts that hold no newline are recovered by splitting their newline-joined text |
| `ImageUpload.RejectionLines` | src/components/ImageUpload.tsx:22-28 | when no file name has a newline, the error text has exactly one line per rejected file, in order |
| `ImageUpload.Component.constructor` | src/components/ImageUpload.tsx:16-17 | no previews and no error at first |
| `ImageUpload.Component.OnDrop` | src/components/ImageUpload.tsx:19-39 | any rejection sets the joined error text, leaves the previews unchanged and does not call `onImagesSelected`, even when some files were accepted. With no rejection the error is cleared, the new previews are appended in order, and `onImagesSelected` receives exactly the accepted files |

## Left out

- Network, disk and platform calls are inputs, not behaviour. This covers `fetch`,
  the multipart parser, `fs.readFileSync`, `arrayBuffer` plus base64 encoding,
  `response.text()`, `JSON.parse`, `crypto.randomUUID` and `URL.createObjectURL`.
  `JSON.parse` is a function parameter; the others are values of the input datatypes.
- JSON serialisation is not modelled. A response body is the value handed to
  `res.json`, `JSON.stringify` or `NextResponse.json`. When that value is
  serialised, members that are `undefined` are dropped. Examples are
  `text_detection` in the analyze route and the caption of an empty array answer in
  the Hugging Face route.
- Header defaults added by the framework are left out. `Response.headers` holds only
  the headers a handler sets itself.
- The `details: error.stack` member of the analyze route's 500 body is left out,
  because a stack trace depends on the engine.
- TypeError messages use V8's wording, which is the engine's and not the source's.
- Strings are sequences of Unicode scalar values, but JavaScript indexes and measures
  strings in UTF-16 code units. So `Js.Prefix` (`substring(0, 100)`) and `Js.At` on a
  string differ from the source on text with characters outside the Basic
  Multilingual Plane.
- `Outbound` carries the URL and the JSON payload only. It does not carry the HTTP
  method or the request headers. This drops the Hugging Face route's
  `Authorization: Bearer …` header, whose key comes from the environment with a
  placeholder fallback, and the `Content-Type`/`Accept` headers of all three routes.
- `Js.Positive` models `length > 0` only for number and boolean lengths. A `length`
  that is a string, an array or an object is taken as not positive, so JavaScript's
  numeric coercion of those values is not modelled. Only an `objects` object that
  carries its own `length` member can reach this case.
- The formidable `files` object is given as its entries in `Object.keys` order. How
  JavaScript orders integer-like keys is not modelled.
- The 1500 ms `setTimeout` before mock data reaches a card is left out. The stale
  index is left out too: `handleAnalyze` captures the index before `await`, and a
  card removed mid-request makes it stale. `ImageAnalysis.Component.HandleAnalyze`
  runs as one atomic step, split into `BeginAnalyze` and `FinishAnalyze`.
- The multipart request that `ImageAnalysis.tsx` sends (`files`, `analysis_type:
  'all'`) is left out; only its outcome is modelled.
- Logging (`console.*`) is left out.
- react-dropzone's own checks (accepted types, `maxSize`) are left out. They decide
  which files arrive as accepted and which as rejected, so both lists are inputs. A
  rejection is represented by its file, because the rejection's `errors` list is
  never read.
- `onImagesSelected` is represented by the value `ImageUpload.Component.OnDrop`
  returns: the files it would receive, or none when it is not called.
- `huggingface_space/app.py` and `backend/main.py` are not part of this model. They
  wrap ML inference libraries, a vector index and floating-point similarity scores.
- `components/ImageAnalysis.tsx` is not part of this model. Its behaviour depends on
  the timing of a `FileReader` callback.
- The search and Q&A relays, the API client, the constant-payload routes, rendering,
  layout and configuration are not part of this model. They contain no
  normalisation logic.
