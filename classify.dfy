/**
 * The three rules `perguntar` uses to decide, after a failed call, whether
 * to move on to the next model (retryable) or to re-raise (fatal).
 */
module Classify {

  import opened Wrappers
  import opened PyStr
  import opened Provider

  /** New SDK (getDados.py:250-255): a `ClientError` whose code is 404 or
      429, or whose text mentions NOT_FOUND, RESOURCE_EXHAUSTED or, in any
      case, quota. */
  predicate NewSdkRetryable(e: ProviderError) {
    && e.isClientError
    && (|| e.code == Some(404) || Contains(e.message, "NOT_FOUND")
        || e.code == Some(429) || Contains(e.message, "RESOURCE_EXHAUSTED")
        || Contains(Lower(e.message), "quota"))
  }

  /** Legacy `generate_text` (getDados.py:336): the text alone decides, and
      a case-insensitive "not found" is accepted too. */
  predicate GenerateTextRetryable(message: string) {
    || Contains(message, "NOT_FOUND") || Contains(Lower(message), "not found")
    || Contains(message, "RESOURCE_EXHAUSTED") || Contains(Lower(message), "quota")
  }

  /** Legacy `responses.create` (getDados.py:406): only "not found" errors. */
  predicate ResponsesRetryable(message: string) {
    Contains(message, "NOT_FOUND") || Contains(Lower(message), "not found")
  }

  /** The rule of the given entry point. */
  predicate Retryable(api: Api, e: ProviderError) {
    match api
    case GenerateContent => NewSdkRetryable(e)
    case GenerateText => GenerateTextRetryable(e.message)
    case ResponsesCreate => ResponsesRetryable(e.message)
  }

  /** Under the new SDK anything that is not a `ClientError` is fatal,
      whatever its code or text. */
  lemma OnlyClientErrorsRetry(e: ProviderError)
    requires !e.isClientError
    ensures !Retryable(GenerateContent, e)
  {
  }

  /** A status code of 404 or 429 makes a `ClientError` retryable whatever its text. */
  lemma StatusCodeSuffices(e: ProviderError)
    requires e.isClientError && (e.code == Some(404) || e.code == Some(429))
    ensures Retryable(GenerateContent, e)
  {
  }

  /** "quota" is matched in any letter case: a `ClientError` whose text holds
      "QUOTA", "Quota" or any other spelling that lowers to "quota" is retryable. */
  lemma QuotaInAnyCase(e: ProviderError, w: string)
    requires e.isClientError && Lower(w) == "quota" && Contains(e.message, w)
    ensures Retryable(GenerateContent, e)
  {
    LowerKeepsOccurrences(e.message, w);
  }

  /** Likewise "not found" for both legacy rules. */
  lemma NotFoundInAnyCase(message: string, w: string)
    requires Lower(w) == "not found" && Contains(message, w)
    ensures GenerateTextRetryable(message) && ResponsesRetryable(message)
  {
    LowerKeepsOccurrences(message, w);
  }

  /** The `responses` rule accepts a subset of what the `generate_text` rule
      accepts, and a `ClientError` the new SDK retries on its text alone is
      retried by the `generate_text` rule too. */
  lemma RulesNested(e: ProviderError)
    ensures Retryable(ResponsesCreate, e) ==> Retryable(GenerateText, e)
    ensures (Retryable(GenerateContent, e) && e.code != Some(404) && e.code != Some(429))
              ==> Retryable(GenerateText, e)
  {
  }

  /** A substring with a character the string lacks does not occur in it. */
  lemma MissingCharExcludes(s: string, sub: string, j: nat)
    requires j < |sub| && sub[j] !in s
    ensures !Contains(s, sub)
  {
    ContainsIff(s, sub);
  }

  /** `lower()` leaves a string without capitals unchanged. */
  lemma LowerNoCapitals(s: string)
    requires forall j :: 0 <= j < |s| ==> !('A' <= s[j] <= 'Z')
    ensures Lower(s) == s
  {
  }

  /** The rules disagree: a `ClientError` with a code other than 404 and 429
      whose text says "not found" in lower case (and has no capitals and no
      "q") is fatal under the new SDK but retryable under both legacy rules. */
  lemma RulesDisagreeOnPlainNotFound(e: ProviderError)
    requires e.code != Some(404) && e.code != Some(429)
    requires forall j :: 0 <= j < |e.message| ==> !('A' <= e.message[j] <= 'Z') && e.message[j] != 'q'
    requires Contains(e.message, "not found")
    ensures !Retryable(GenerateContent, e)
    ensures Retryable(GenerateText, e) && Retryable(ResponsesCreate, e)
  {
    var m := e.message;
    LowerNoCapitals(m);
    assert 'N' !in m && 'R' !in m && 'q' !in m;
    MissingCharExcludes(m, "NOT_FOUND", 0);
    MissingCharExcludes(m, "RESOURCE_EXHAUSTED", 0);
    MissingCharExcludes(m, "quota", 0);
  }

  /** A quota error that does not say "not found" is retried by the new SDK
      (as a `ClientError`) and by `generate_text`, but `responses.create`
      re-raises it. */
  lemma QuotaFatalUnderResponses(e: ProviderError)
    requires Contains(Lower(e.message), "quota")
    requires !Contains(e.message, "NOT_FOUND") && !Contains(Lower(e.message), "not found")
    ensures Retryable(GenerateText, e)
    ensures e.isClientError ==> Retryable(GenerateContent, e)
    ensures !Retryable(ResponsesCreate, e)
  {
  }

  /** Such errors exist: a lower-case text with "quota" and no 'n' (so no
      "not found" and no "NOT_FOUND") is one. */
  lemma LowerCaseQuotaIsOne(e: ProviderError)
    requires forall j :: 0 <= j < |e.message| ==> !('A' <= e.message[j] <= 'Z') && e.message[j] != 'n'
    requires Contains(e.message, "quota")
    ensures Contains(Lower(e.message), "quota")
    ensures !Contains(e.message, "NOT_FOUND") && !Contains(Lower(e.message), "not found")
  {
    var m := e.message;
    LowerNoCapitals(m);
    assert 'N' !in m && 'n' !in m;
    MissingCharExcludes(m, "NOT_FOUND", 0);
    MissingCharExcludes(m, "not found", 0);
  }
}
