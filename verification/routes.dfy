/** The four POST handlers: each shapes its request, calls the fallback
    selector over the configured list and turns the outcome into an HTTP
    reply: 200 `{model, result}` or 500 `{error: message}`. */
module Routes {
  import opened Genai
  import opened Fallback
  import opened Shaping
  import opened Extract

  /** The JSON body of a reply. */
  datatype Body =
    | ModelResult(model: ModelId, result: string)
    | ErrorMessage(error: string)

  datatype HttpResponse = HttpResponse(status: int, body: Body)

  /** `req.body` of the JSON text route: its `prompt` field, if any. */
  datatype TextRequest = TextRequest(prompt: Option<string>)

  /** The multipart upload: its file name, declared type and base64 payload. */
  datatype UploadedFile = UploadedFile(originalName: string, mimeType: Option<string>, encoded: string)

  /** A multipart request: the `prompt` field and the uploaded file, if any. */
  datatype UploadRequest = UploadRequest(prompt: Option<string>, file: Option<UploadedFile>)

  const PROMPT_REQUIRED := HttpResponse(400, ErrorMessage("Prompt is required"))

  /** The message of the TypeError thrown by `req.file.buffer` when no file was uploaded. */
  const MISSING_FILE_MESSAGE := "Cannot read properties of undefined (reading 'buffer')"

  /** A single user entry holding the given parts. */
  function UserContents(parts: seq<Part>): seq<Content> {
    [Content("user", parts)]
  }

  /** How a handler answers once the selector has finished. */
  function Reply(result: Result<Generated, ProviderError>, serialize: Serializer): (res: HttpResponse)
    ensures res.status == 200 <==> result.Ok?
    ensures result.Ok? ==> res.body == ModelResult(result.value.model, ExtractText(result.value.resp, serialize))
    ensures result.Err? ==> res == HttpResponse(500, ErrorMessage(result.error.message))
  {
    match result
    case Ok(g) => HttpResponse(200, ModelResult(g.model, ExtractText(g.resp, serialize)))
    case Err(e) => HttpResponse(500, ErrorMessage(e.message))
  }

  /** POST /generate-text. An absent or empty prompt is refused with 400
      before any provider call; otherwise the prompt goes out as one text part. */
  method GenerateText(req: TextRequest, provider: Provider, serialize: Serializer)
    returns (res: HttpResponse, attempted: seq<ModelId>)
    ensures !Truthy(req.prompt) ==> res == PROMPT_REQUIRED && attempted == []
    ensures Truthy(req.prompt) ==>
      var run := Reference(MODELS, UserContents([Text(req.prompt.value)]), provider);
      res == Reply(run.result, serialize) && attempted == run.attempted
  {
    if !Truthy(req.prompt) {
      return PROMPT_REQUIRED, [];
    }
    var result;
    result, attempted := GenerateWithFallback(MODELS, UserContents([Text(req.prompt.value)]), provider);
    res := Reply(result, serialize);
  }

  /** POST /generate-from-image. The declared type defaults to image/jpeg
      only when absent or empty; the prompt defaults when absent or empty. */
  method GenerateFromImage(req: UploadRequest, provider: Provider, serialize: Serializer)
    returns (res: HttpResponse, attempted: seq<ModelId>)
    ensures req.file.None? ==> res == HttpResponse(500, ErrorMessage(MISSING_FILE_MESSAGE)) && attempted == []
    ensures req.file.Some? ==>
      var parts := [Text(Or(req.prompt, IMAGE_DEFAULT_PROMPT)),
                    InlineData(Some(Or(req.file.value.mimeType, IMAGE_DEFAULT_MIME)), req.file.value.encoded)];
      var run := Reference(MODELS, UserContents(parts), provider);
      res == Reply(run.result, serialize) && attempted == run.attempted
  {
    if req.file.None? {
      return HttpResponse(500, ErrorMessage(MISSING_FILE_MESSAGE)), [];
    }
    var file := req.file.value;
    var mimeType := Or(file.mimeType, IMAGE_DEFAULT_MIME);
    var parts := [Text(Or(req.prompt, IMAGE_DEFAULT_PROMPT)), InlineData(Some(mimeType), file.encoded)];
    var result;
    result, attempted := GenerateWithFallback(MODELS, UserContents(parts), provider);
    res := Reply(result, serialize);
  }

  /** POST /generate-from-audio. The type comes from the audio suffix rule. */
  method GenerateFromAudio(req: UploadRequest, provider: Provider, serialize: Serializer)
    returns (res: HttpResponse, attempted: seq<ModelId>)
    ensures req.file.None? ==> res == HttpResponse(500, ErrorMessage(MISSING_FILE_MESSAGE)) && attempted == []
    ensures req.file.Some? ==>
      var file := req.file.value;
      var parts := [Text(Or(req.prompt, AUDIO_DEFAULT_PROMPT)),
                    InlineData(ResolveAudioMime(file.mimeType, file.originalName), file.encoded)];
      var run := Reference(MODELS, UserContents(parts), provider);
      res == Reply(run.result, serialize) && attempted == run.attempted
  {
    if req.file.None? {
      return HttpResponse(500, ErrorMessage(MISSING_FILE_MESSAGE)), [];
    }
    var file := req.file.value;
    var mimeType := ResolveAudioMime(file.mimeType, file.originalName);
    var parts := [Text(Or(req.prompt, AUDIO_DEFAULT_PROMPT)), InlineData(mimeType, file.encoded)];
    var result;
    result, attempted := GenerateWithFallback(MODELS, UserContents(parts), provider);
    res := Reply(result, serialize);
  }

  /** POST /generate-from-document. The declared type defaults to
      application/pdf only when absent or empty. */
  method GenerateFromDocument(req: UploadRequest, provider: Provider, serialize: Serializer)
    returns (res: HttpResponse, attempted: seq<ModelId>)
    ensures req.file.None? ==> res == HttpResponse(500, ErrorMessage(MISSING_FILE_MESSAGE)) && attempted == []
    ensures req.file.Some? ==>
      var parts := [Text(Or(req.prompt, DOCUMENT_DEFAULT_PROMPT)),
                    InlineData(Some(Or(req.file.value.mimeType, DOCUMENT_DEFAULT_MIME)), req.file.value.encoded)];
      var run := Reference(MODELS, UserContents(parts), provider);
      res == Reply(run.result, serialize) && attempted == run.attempted
  {
    if req.file.None? {
      return HttpResponse(500, ErrorMessage(MISSING_FILE_MESSAGE)), [];
    }
    var file := req.file.value;
    var mimeType := Or(file.mimeType, DOCUMENT_DEFAULT_MIME);
    var parts := [Text(Or(req.prompt, DOCUMENT_DEFAULT_PROMPT)), InlineData(Some(mimeType), file.encoded)];
    var result;
    result, attempted := GenerateWithFallback(MODELS, UserContents(parts), provider);
    res := Reply(result, serialize);
  }

  /** When the primary model is overloaded and the second one answers, a text
      request is answered 200 with the second model's name, after two calls. */
  lemma TextRouteFallsBackOnce(prompt: string, provider: Provider, serialize: Serializer)
    requires prompt != ""
    requires provider(MODELS[0], UserContents([Text(prompt)])).Failure?
    requires provider(MODELS[0], UserContents([Text(prompt)])).error.status == Some(503)
    requires provider(MODELS[1], UserContents([Text(prompt)])).Success?
    ensures var run := Reference(MODELS, UserContents([Text(prompt)]), provider);
      && run.attempted == ["gemini-2.5-flash", "gemini-2.5-flash-preview-05-20"]
      && Reply(run.result, serialize).status == 200
      && Reply(run.result, serialize).body.model == "gemini-2.5-flash-preview-05-20"
  {

  }
}
