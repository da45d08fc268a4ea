/** The string decisions the handlers make before calling the selector:
    JavaScript `||` defaults for prompts and media types, and the audio
    media-type inference from the file name. */
module Shaping {
  import opened Genai

  const OCTET_STREAM := "application/octet-stream"
  const IMAGE_DEFAULT_MIME := "image/jpeg"
  const DOCUMENT_DEFAULT_MIME := "application/pdf"
  const IMAGE_DEFAULT_PROMPT := "Jelaskan isi gambar ini:"
  const AUDIO_DEFAULT_PROMPT := "Transkrip audio berikut:"
  const DOCUMENT_DEFAULT_PROMPT := "Ringkas dokumen berikut:"

  /** The audio suffix table, in the order the handler checks it. */
  const AUDIO_EXTENSIONS: seq<(string, string)> := [
    (".mp3", "audio/mpeg"),
    (".wav", "audio/wav"),
    (".webm", "audio/webm")
  ]

  /** JavaScript truthiness of a string that may be undefined. */
  predicate Truthy(v: Option<string>) {
    v.Some? && v.value != ""
  }

  /** JavaScript `v || fallback` for a string that may be undefined. */
  function Or(v: Option<string>, fallback: string): string {
    if Truthy(v) then v.value else fallback
  }

  /** `String.prototype.endsWith`. */
  predicate EndsWith(s: string, suffix: string) {
    |suffix| <= |s| && s[|s| - |suffix|..] == suffix
  }

  /** A declared audio type the handler replaces: absent, empty or octet-stream. */
  predicate IsPlaceholder(declared: Option<string>) {
    !Truthy(declared) || declared.value == OCTET_STREAM
  }

  /** The audio handler's if/else chain on `mimeType`, as written. */
  function ResolveAudioMime(declared: Option<string>, filename: string): Option<string> {
    if !IsPlaceholder(declared) then declared
    else if EndsWith(filename, ".mp3") then Some("audio/mpeg")
    else if EndsWith(filename, ".wav") then Some("audio/wav")
    else if EndsWith(filename, ".webm") then Some("audio/webm")
    else declared
  }

  /** The first row of the table whose suffix ends the name, or |table|. */
  function FirstSuffixMatch(table: seq<(string, string)>, name: string): (k: nat)
    ensures k <= |table|
    ensures forall j :: 0 <= j < k ==> !EndsWith(name, table[j].0)
    ensures k < |table| ==> EndsWith(name, table[k].0)
  {
    if table == [] || EndsWith(name, table[0].0) then 0
    else 1 + FirstSuffixMatch(table[1..], name)
  }

  lemma FirstSuffixMatchUnique(table: seq<(string, string)>, name: string, k: nat)
    requires k <= |table|
    requires forall j :: 0 <= j < k ==> !EndsWith(name, table[j].0)
    requires k < |table| ==> EndsWith(name, table[k].0)
    ensures FirstSuffixMatch(table, name) == k
  {
  }

  /** The audio type the suffix table gives a file name, if any. */
  function AudioTypeByExtension(name: string): Option<string> {
    var k := FirstSuffixMatch(AUDIO_EXTENSIONS, name);
    if k < |AUDIO_EXTENSIONS| then Some(AUDIO_EXTENSIONS[k].1) else None
  }

  /** No name ends in two of ".mp3", ".wav", ".webm", so the order in which
      the handler tries them never changes the outcome. */
  lemma AudioSuffixesExclusive(name: string)
    ensures EndsWith(name, ".mp3") ==> !EndsWith(name, ".wav") && !EndsWith(name, ".webm")
    ensures EndsWith(name, ".wav") ==> !EndsWith(name, ".webm")
  {

  }

  /** The if/else chain agrees with the suffix table: a declared type that is
      not a placeholder is kept; otherwise the table's type for the name is
      used when there is one, and the declared value is left as it was when
      there is none. */
  lemma {:induction false} ResolveAudioMimeMatchesTable(declared: Option<string>, filename: string)
    ensures ResolveAudioMime(declared, filename)
         == if IsPlaceholder(declared) && AudioTypeByExtension(filename).Some?
            then AudioTypeByExtension(filename) else declared
  {
    AudioSuffixesExclusive(filename);
    var t := AUDIO_EXTENSIONS;
    assert t[0].0 == ".mp3" && t[1].0 == ".wav" && t[2].0 == ".webm" && |t| == 3;
    var k := if EndsWith(filename, ".mp3") then 0
      else if EndsWith(filename, ".wav") then 1
      else if EndsWith(filename, ".webm") then 2
      else 3;
    assert forall j :: 0 <= j < k ==> !EndsWith(filename, t[j].0);
    FirstSuffixMatchUnique(t, filename, k);
  }

  /** The resolved type only ever differs from the declared one when the
      declared one is a placeholder, and then it is one of the three audio types. */
  lemma ResolveAudioMimeChangesOnlyPlaceholders(declared: Option<string>, filename: string)
    ensures var r := ResolveAudioMime(declared, filename);
      r != declared ==>
        && IsPlaceholder(declared)
        && r in [Some("audio/mpeg"), Some("audio/wav"), Some("audio/webm")]
  {
  }

  /** Resolving an already resolved type changes nothing. */
  lemma ResolveAudioMimeIdempotent(declared: Option<string>, filename: string)
    ensures ResolveAudioMime(ResolveAudioMime(declared, filename), filename)
         == ResolveAudioMime(declared, filename)
  {
  }

  /** "clip.mp3" uploaded as octet-stream is sent as audio/mpeg. */
  lemma ResolveAudioMimeClipMp3()
    ensures ResolveAudioMime(Some(OCTET_STREAM), "clip.mp3") == Some("audio/mpeg")
  {

  }

  /** `v || fallback` gives the fallback exactly when v is absent or empty,
      or is the fallback itself; otherwise it gives v. */
  lemma OrIsFallbackIff(v: Option<string>, fallback: string)
    ensures Or(v, fallback) == fallback <==> !Truthy(v) || v == Some(fallback)
    ensures Truthy(v) ==> Or(v, fallback) == v.value
  {
  }

  /** A non-empty fallback makes the result non-empty, and defaulting twice
      is defaulting once. */
  lemma OrNonEmptyIdempotent(v: Option<string>, fallback: string)
    ensures fallback != "" ==> Or(v, fallback) != ""
    ensures Or(Some(Or(v, fallback)), fallback) == Or(v, fallback)
  {
  }

  /** The image and document defaults use `||` only, so a declared
      octet-stream type is passed through unchanged. */
  lemma OrKeepsOctetStream()
    ensures Or(Some(OCTET_STREAM), IMAGE_DEFAULT_MIME) == OCTET_STREAM
    ensures Or(Some(OCTET_STREAM), DOCUMENT_DEFAULT_MIME) == OCTET_STREAM
  {
  }
}
