# Gemini fallback API server: a Dafny model

This project models the decision logic of a small HTTP front-end to the
Gemini generative-AI API (`index.js`). Each request is sent to a fixed list of
model identifiers, tried in priority order. The first model whose call succeeds
answers the request. An overload (503) or rate-limit (429) error moves on to the
next model. Any other error ends the run at once.

The model has five modules, one file each:

- `Genai` (`genai.dfy`): the values exchanged with the provider. These are content
  parts, responses, errors and call outcomes. The provider is an oracle: a
  total function from a model id and the request contents to `Success(response)`
  or `Failure(error)`. The response serializer is an opaque total function.
- `Fallback` (`fallback.dfy`): `generateWithFallback`. It is a method with a `while`
  loop over the candidates and the mutable `lastError`, as the source has it.
  It also returns the sequence of models it called. Its postcondition equates
  that pair with a declarative `Reference`. `Reference` is built on `StopIndex`,
  the first candidate whose call does not fail retryably. Lemmas about
  `Reference` state the selector's properties.
- `Shaping` (`shaping.dfy`): the string decisions made before the call. These are
  JavaScript `||` defaults for prompts and media types, and the audio media-type
  inference from the file-name suffix.
- `Extract` (`extract.dfy`): `extractText`.
- `Routes` (`routes.dfy`): the four POST handlers. Each is a method that shapes the
  request, calls the selector over `MODELS` and turns the outcome into a 200
  `{model, result}` or a 500 `{error}` reply. The text route answers 400 first
  when the prompt is missing.

Absent JavaScript values (`undefined`) are `None`. JavaScript truthiness of a
string is `Truthy`: present and non-empty.

The image and document handlers default the media type with `||` only. So,
unlike the audio route, they pass a declared `application/octet-stream`
through unchanged (`Shaping.OrKeepsOctetStream`).

## Model

| member | source | states |
|---|---|---|
| Fallback.StopIndex | index.js:46-60 | the selector stops at the least index whose call does not fail with 503/429, or at the end of the list; every earlier call failed retryably |
| Fallback.Reference | index.js:43-65 | the models called are always a prefix of the candidate list (so at most one call per candidate, in list order), and every call before the last failed with 503/429 |
| Fallback.GenerateWithFallback | index.js:43-65 | the loop's result and the models it called are exactly those of the reference run, for every candidate list, contents and provider |
| Fallback.FirstSuccessAfterRetries | index.js:46-54 | if candidates before k fail with 503/429 and candidate k succeeds, the result is k's response with `candidates[k]`, and exactly `candidates[..k+1]` were called |
| Fallback.TerminalFailureStops | index.js:55-60 | the first failure whose status is neither 503 nor 429, including a missing status, ends the run with that same error; no later candidate is called |
| Fallback.ExhaustionSurfacesLastError | index.js:56-64 | when every candidate fails retryably, all are called and the last one's error is thrown; an empty list throws the generic "Semua model gagal dipanggil" error |
| Fallback.SuccessIsFirstSucceeding | index.js:47-54 | on success the model is on the list, was the last one called, its call succeeded, every earlier call failed retryably, and the returned response is its response |
| Fallback.SucceedsIff | index.js:46-62 | a run succeeds if and only if some candidate succeeds after only retryable failures before it |
| Fallback.FailureMeansNoSuccessCalled | index.js:48-60 | a failed run never called a candidate whose call succeeded |
| Fallback.ConfiguredListStartsWithPrimary | index.js:11-21 | over the configured list, the first call always goes to "gemini-2.5-flash", and between one and nine calls are made |
| Shaping.FirstSuffixMatch | index.js:123-125 | the index of the first row of a suffix table whose suffix ends the name, or the table's length when none does |
| Shaping.ResolveAudioMimeMatchesTable | index.js:121-126 | a declared audio type that is non-empty and not octet-stream is kept; otherwise `.mp3`/`.wav`/`.webm` give audio/mpeg, audio/wav or audio/webm; otherwise the declared value is left as it was |
| Shaping.AudioSuffixesExclusive | index.js:123-125 | no name ends in two of the three suffixes, so the order in which they are checked never changes the outcome |
| Shaping.ResolveAudioMimeChangesOnlyPlaceholders | index.js:121-126 | the resolved type differs from the declared one only when the declared one is absent, empty or octet-stream, and then it is one of the three audio types |
| Shaping.ResolveAudioMimeIdempotent | index.js:121-126 | resolving an already resolved type changes nothing |
| Shaping.ResolveAudioMimeClipMp3 | index.js:122-123 | "clip.mp3" declared as application/octet-stream resolves to audio/mpeg |
| Shaping.OrIsFallbackIff | index.js:99 | JavaScript `or`-defaulting of the prompt gives the default exactly when the prompt is absent or empty (or is the default itself), and the prompt otherwise |
| Shaping.OrNonEmptyIdempotent | index.js:132 | with a non-empty default the chosen prompt is never empty, and defaulting twice is the same as defaulting once |
| Shaping.OrKeepsOctetStream | index.js:153 | the image and document `or`-defaults keep a declared application/octet-stream type |
| Extract.ExtractTextPrefersText | index.js:31-33 | a present `text` is returned as is, even when it is the empty string |
| Extract.ExtractTextIsSerializationIff | index.js:31-37 | the result is the serialization exactly when `text` is null/undefined or equals the serialization |
| Routes.Reply | index.js:79-82 | the reply is 200 if and only if the selector succeeded; 200 carries the model and the extracted text, 500 carries the error's message |
| Routes.GenerateText | index.js:70-84 | an absent or empty prompt gets 400 "Prompt is required" with no provider call; otherwise the reply and the models called are those of the reference run on a single user text part |
| Routes.GenerateFromImage | index.js:89-110 | a missing file gets 500 with no provider call; otherwise the prompt (default "Jelaskan isi gambar ini:") and the type (default image/jpeg when absent or empty) go out, and the reply follows the reference run |
| Routes.GenerateFromAudio | index.js:115-143 | a missing file gets 500 with no provider call; otherwise the prompt (default "Transkrip audio berikut:") and the resolved audio type go out, and the reply follows the reference run |
| Routes.GenerateFromDocument | index.js:149-170 | a missing file gets 500 with no provider call; otherwise the prompt (default "Ringkas dokumen berikut:") and the type (default application/pdf when absent or empty) go out, and the reply follows the reference run |
| Routes.TextRouteFallsBackOnce | index.js:75-79 | if the primary model is overloaded and the second succeeds, the text route answers 200 naming "gemini-2.5-flash-preview-05-20" after exactly two calls |

## Left out

- Express routing, `app.listen`, `dotenv` and `PORT` handling (index.js:1-8, 23-26): HTTP and environment I/O.
- multer parsing and `buffer.toString('base64')`: library calls. The encoded payload is an opaque string field of the upload.
- The network call `ai.models.generateContent` and its `await`: replaced by the provider oracle. A real provider may answer differently on each call; the oracle fixes one outcome per model and contents. That is all a single run observes for a candidate list without repeated ids, as `MODELS` is; on a list that repeats an id, the source makes two calls that may answer differently, and the model gives both the same answer.
- `JSON.stringify` formatting, and the `catch` path of `extractText`: the serializer is a total function parameter, so extraction never fails in the model. A serializer that throws inside the `catch` is not modelled.
- A provider that resolves to `null` or `undefined`: the response is always an object, so `resp?.text` is just its `text` field.
- Routes.GenerateText: a JSON `prompt` that is not a string (a number, `true`, an object, an array) is not modelled; the prompt is an optional string.
- Routes.GenerateFromImage, Routes.GenerateFromAudio, Routes.GenerateFromDocument: a multipart `prompt` that arrives as an array (a repeated field, or one named `prompt[]`) is not modelled; the prompt is an optional string, so for example `[""]`, which is truthy in JavaScript and gets no default, cannot be expressed.
- Routes.GenerateFromImage, Routes.GenerateFromAudio, Routes.GenerateFromDocument: the 500 message for a missing upload is V8's TypeError text, taken as a constant.
- Logging with `console.log`/`warn`/`error`.
