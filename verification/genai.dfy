/** Values exchanged between the HTTP handlers, the fallback selector and the
    generative-AI provider client. The provider itself is an oracle: a total
    function from a model identifier and the request contents to an outcome. */
module Genai {

  datatype Option<+T> = None | Some(value: T)

  datatype Result<+R, +E> = Ok(value: R) | Err(error: E)

  /** A model identifier such as "gemini-2.5-flash". */
  type ModelId = string

  /** One content part: a text span, or inline data with its media type
      (None when the upload carried none) and the base64 payload, which the
      model treats as an opaque string. */
  datatype Part =
    | Text(text: string)
    | InlineData(mimeType: Option<string>, data: string)

  /** One role-tagged entry of the `contents` list sent to the provider. */
  datatype Content = Content(role: string, parts: seq<Part>)

  /** A provider response: its `text` accessor (None when null or undefined)
      and the rest of the object, kept opaque. */
  datatype ProviderResponse = ProviderResponse(text: Option<string>, rest: string)

  /** A thrown error: its optional numeric `status` and its `message`. */
  datatype ProviderError = ProviderError(status: Option<int>, message: string)

  /** What one `generateContent` call does: resolves with a response or rejects. */
  datatype Outcome =
    | Success(response: ProviderResponse)
    | Failure(error: ProviderError)

  /** The provider call, as an oracle over the model id and the contents. */
  type Provider = (ModelId, seq<Content>) -> Outcome

  /** The structured serialization of a response (pretty-printed JSON), opaque. */
  type Serializer = ProviderResponse -> string
}
