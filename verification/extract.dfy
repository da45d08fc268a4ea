/** `extractText`: the response's `text` when it is neither null nor
    undefined (`??`), otherwise the response's structured serialization. */
module Extract {
  import opened Genai

  function ExtractText(resp: ProviderResponse, serialize: Serializer): string {
    match resp.text
    case Some(t) => t
    case None => serialize(resp)
  }

  /** A present text is returned as is, even when it is empty: `??` does not
      treat "" as missing, unlike `||`. */
  lemma ExtractTextPrefersText(resp: ProviderResponse, serialize: Serializer)
    ensures resp.text.Some? ==> ExtractText(resp, serialize) == resp.text.value
    ensures resp.text == Some("") ==> ExtractText(resp, serialize) == ""
  {
  }

  /** The result is the serialization exactly when the text is missing or
      happens to equal the serialization; otherwise it is the text. */
  lemma ExtractTextIsSerializationIff(resp: ProviderResponse, serialize: Serializer)
    ensures ExtractText(resp, serialize) == serialize(resp)
        <==> resp.text.None? || resp.text == Some(serialize(resp))
  {
  }
}
