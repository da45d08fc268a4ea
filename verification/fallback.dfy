/** The model fallback selector: walk the priority list in order, return the
    first candidate whose call succeeds, fall through to the next candidate
    on an overload (503) or rate-limit (429) error, and stop on any other. */
module Fallback {
  import opened Genai

  /** The fixed priority list, most preferred first. */
  const MODELS: seq<ModelId> := [
    "gemini-2.5-flash",
    "gemini-2.5-flash-preview-05-20",
    "gemini-2.5-flash-lite",
    "gemini-2.5-flash-lite-06-17",
    "gemini-2.0-flash",
    "gemini-2.0-flash-001",
    "gemini-2.0-flash-exp",
    "gemini-2.0-flash-lite",
    "gemini-2.0-flash-lite-001"
  ]

  /** The generic error thrown when no error was ever recorded. */
  const ALL_MODELS_FAILED := ProviderError(None, "Semua model gagal dipanggil")

  /** The pair `{resp, model}` returned on success. */
  datatype Generated = Generated(resp: ProviderResponse, model: ModelId)

  /** What one selector run produces: its result and the models it called, in order. */
  datatype Run = Run(result: Result<Generated, ProviderError>, attempted: seq<ModelId>)

  /** Statuses that move the selector on to the next candidate. */
  predicate IsRetryableStatus(status: Option<int>) {
    status == Some(503) || status == Some(429)
  }

  /** A call that failed with a retryable status. */
  predicate Retryable(o: Outcome) {
    o.Failure? && IsRetryableStatus(o.error.status)
  }

  /** The index at which the selector stops: the first candidate whose call
      does not fail retryably, or |candidates| when every call does. */
  function StopIndex(candidates: seq<ModelId>, contents: seq<Content>, provider: Provider): (k: nat)
    ensures k <= |candidates|
    ensures forall j :: 0 <= j < k ==> Retryable(provider(candidates[j], contents))
    ensures k < |candidates| ==> !Retryable(provider(candidates[k], contents))
  {
    if candidates == [] || !Retryable(provider(candidates[0], contents)) then 0
    else 1 + StopIndex(candidates[1..], contents, provider)
  }

  /** The stopping index is the only index with its two properties. */
  lemma StopIndexUnique(candidates: seq<ModelId>, contents: seq<Content>, provider: Provider, k: nat)
    requires k <= |candidates|
    requires forall j :: 0 <= j < k ==> Retryable(provider(candidates[j], contents))
    requires k < |candidates| ==> !Retryable(provider(candidates[k], contents))
    ensures StopIndex(candidates, contents, provider) == k
  {
  }

  /** The declarative reference for one selector run. */
  function Reference(candidates: seq<ModelId>, contents: seq<Content>, provider: Provider): (r: Run)
    ensures |r.attempted| <= |candidates| && r.attempted == candidates[..|r.attempted|]
    ensures forall j :: 0 <= j < |r.attempted| - 1 ==> Retryable(provider(r.attempted[j], contents))
  {
    var k := StopIndex(candidates, contents, provider);
    if k < |candidates| then
      match provider(candidates[k], contents)
      case Success(resp) => Run(Ok(Generated(resp, candidates[k])), candidates[..k + 1])
      case Failure(err) => Run(Err(err), candidates[..k + 1])
    else if candidates == [] then
      Run(Err(ALL_MODELS_FAILED), [])
    else
      Run(Err(provider(candidates[|candidates| - 1], contents).error), candidates)
  }

  /** `generateWithFallback`: the loop over the candidates with the mutable
      `lastError`, returning also the sequence of models it called. */
  method GenerateWithFallback(candidates: seq<ModelId>, contents: seq<Content>, provider: Provider)
    returns (result: Result<Generated, ProviderError>, attempted: seq<ModelId>)
    ensures Run(result, attempted) == Reference(candidates, contents, provider)
  {
    var lastError: Option<ProviderError> := None;
    attempted := [];
    var i := 0;
    while i < |candidates|
      invariant 0 <= i <= |candidates|
      invariant attempted == candidates[..i]
      invariant forall j :: 0 <= j < i ==> Retryable(provider(candidates[j], contents))
      invariant lastError == if i == 0 then None else Some(provider(candidates[i - 1], contents).error)
    {
      var model := candidates[i];
      attempted := attempted + [model];
      var outcome := provider(model, contents);
      match outcome {
        case Success(resp) =>
          StopIndexUnique(candidates, contents, provider, i);
          result := Ok(Generated(resp, model));
          return;
        case Failure(err) =>
          lastError := Some(err);
          if !IsRetryableStatus(err.status) {
            StopIndexUnique(candidates, contents, provider, i);
            result := Err(err);
            return;
          }
      }
      i := i + 1;
    }
    StopIndexUnique(candidates, contents, provider, i);
    result := match lastError
      case Some(err) => Err(err)
      case None => Err(ALL_MODELS_FAILED);
  }

  /** Candidate k is the first success after k retryable failures. */
  predicate SucceedsAfterRetries(candidates: seq<ModelId>, contents: seq<Content>, provider: Provider, k: nat)
  {
    && k < |candidates|
    && (forall j :: 0 <= j < k ==> Retryable(provider(candidates[j], contents)))
    && provider(candidates[k], contents).Success?
  }

  /** Retryable failures before candidate k and a success at k: the result is
      that response with `candidates[k]`, and exactly the first k + 1 were called. */
  lemma FirstSuccessAfterRetries(candidates: seq<ModelId>, contents: seq<Content>, provider: Provider, k: nat)
    requires SucceedsAfterRetries(candidates, contents, provider, k)
    ensures Reference(candidates, contents, provider)
         == Run(Ok(Generated(provider(candidates[k], contents).response, candidates[k])), candidates[..k + 1])
  {

  }

  /** The first non-retryable failure (including one without a status) ends
      the run with that very error; no later candidate is called. */
  lemma TerminalFailureStops(candidates: seq<ModelId>, contents: seq<Content>, provider: Provider, k: nat)
    requires k < |candidates|
    requires forall j :: 0 <= j < k ==> Retryable(provider(candidates[j], contents))
    requires provider(candidates[k], contents).Failure?
    requires !IsRetryableStatus(provider(candidates[k], contents).error.status)
    ensures Reference(candidates, contents, provider)
         == Run(Err(provider(candidates[k], contents).error), candidates[..k + 1])
  {

  }

  /** When every candidate fails retryably, all are called and the last one's
      error is surfaced; an empty list surfaces the generic error. */
  lemma ExhaustionSurfacesLastError(candidates: seq<ModelId>, contents: seq<Content>, provider: Provider)
    requires forall j :: 0 <= j < |candidates| ==> Retryable(provider(candidates[j], contents))
    ensures Reference(candidates, contents, provider).attempted == candidates
    ensures candidates == [] ==> Reference(candidates, contents, provider).result == Err(ALL_MODELS_FAILED)
    ensures candidates != [] ==>
      Reference(candidates, contents, provider).result
        == Err(provider(candidates[|candidates| - 1], contents).error)
  {

  }

  /** On success the model is the last one called, it is on the list, its call
      succeeded, and every earlier call failed retryably: it is the first success. */
  lemma SuccessIsFirstSucceeding(candidates: seq<ModelId>, contents: seq<Content>, provider: Provider)
    ensures var r := Reference(candidates, contents, provider);
      r.result.Ok? ==>
        && |r.attempted| > 0
        && SucceedsAfterRetries(candidates, contents, provider, |r.attempted| - 1)
        && r.result.value.model == candidates[|r.attempted| - 1]
        && r.result.value.model in candidates
        && r.result.value.resp == provider(r.result.value.model, contents).response
  {
  }

  /** The run succeeds exactly when some candidate succeeds after retryable
      failures only. */
  lemma SucceedsIff(candidates: seq<ModelId>, contents: seq<Content>, provider: Provider)
    ensures Reference(candidates, contents, provider).result.Ok?
        <==> exists k :: 0 <= k < |candidates| && SucceedsAfterRetries(candidates, contents, provider, k)
  {
    var r := Reference(candidates, contents, provider);
    if r.result.Ok? {
      SuccessIsFirstSucceeding(candidates, contents, provider);
      assert SucceedsAfterRetries(candidates, contents, provider, |r.attempted| - 1);
    }
    if k :| 0 <= k < |candidates| && SucceedsAfterRetries(candidates, contents, provider, k) {
      FirstSuccessAfterRetries(candidates, contents, provider, k);
    }
  }

  /** A failed run never called a candidate that succeeded. */
  lemma FailureMeansNoSuccessCalled(candidates: seq<ModelId>, contents: seq<Content>, provider: Provider)
    ensures var r := Reference(candidates, contents, provider);
      r.result.Err? ==> forall j :: 0 <= j < |r.attempted| ==> provider(r.attempted[j], contents).Failure?
  {
  }

  /** Over the configured list the first model called is always "gemini-2.5-flash",
      and at most nine calls are made. */
  lemma ConfiguredListStartsWithPrimary(contents: seq<Content>, provider: Provider)
    ensures var r := Reference(MODELS, contents, provider);
      && 1 <= |r.attempted| <= 9
      && r.attempted[0] == "gemini-2.5-flash"
  {
  }
}
