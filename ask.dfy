/**
 * `perguntar`: ask the configured models one question. The credential
 * check, the list of models, and then either the new SDK's loop or the
 * legacy package's two loops, each through the ordered retry loop.
 */
module Ask {

  import opened Wrappers
  import opened PyStr
  import opened Provider
  import opened Classify
  import opened Extract
  import opened Candidates
  import opened Prompt
  import opened Retry

  /** Which package is installed: the new SDK, or the legacy package with
      or without `generate_text` and `responses.create`. */
  datatype Sdk = NewSdk | LegacySdk(hasGenerateText: bool, hasResponses: bool)

  /** The environment variables `perguntar` reads: GOOGLE_API_KEY,
      GOOGLE_APPLICATION_CREDENTIALS, GENAI_MODEL, GENAI_FALLBACK_MODELS and
      GENAI_INSTRUCTIONS. */
  datatype Env = Env(apiKey: Option<string>, credentials: Option<string>, model: Option<string>,
                     fallbacks: Option<string>, instructions: Option<string>)

  /** The exceptions that escape `perguntar`: the RuntimeError of the
      credential check, a provider error re-raised by a loop, the
      RuntimeError after every model failed (with its `__cause__`), and the
      AttributeError when no legacy entry point is left. */
  datatype Failure =
    | MissingCredentials(message: string)
    | ProviderFailure(error: ProviderError)
    | AllModelsFailed(message: string, cause: Option<ProviderError>)
    | NoCompatibleApi(message: string)

  datatype Answer = Answered(text: string) | Failed(failure: Failure)

  /** What one call of `perguntar` returns or raises, and the requests it sent. */
  datatype Reply = Reply(answer: Answer, calls: seq<Request>)

  const CredentialsMessage := "Defina GOOGLE_API_KEY ou GOOGLE_APPLICATION_CREDENTIALS antes de executar."
  const ExhaustedPrefix := "Tentativas falharam para modelos "
  const ExhaustedSuffix := ". (Falha ao listar modelos; verifique sua chave e permiss\U{F5}es.)"
  const NoCompatibleApiMessage :=
    "Nenhuma API compat\U{ED}vel encontrada. Instale 'google-genai' (recomendado): pip install --upgrade google-genai"

  /** The message of the RuntimeError raised after the new SDK's loop used up
      every model (getDados.py:274-276): the names tried, joined with ", ". */
  function ExhaustionMessage(models: seq<string>): (msg: string)
    ensures |msg| == |ExhaustedPrefix| + |Join(models, ", ")| + |ExhaustedSuffix|
    ensures StartsWith(msg, ExhaustedPrefix) && msg[|msg| - |ExhaustedSuffix|..] == ExhaustedSuffix
    ensures msg[|ExhaustedPrefix|..|msg| - |ExhaustedSuffix|] == Join(models, ", ")
  {
    var msg := ExhaustedPrefix + Join(models, ", ") + ExhaustedSuffix;
    assert msg[..|ExhaustedPrefix|] == ExhaustedPrefix;
    assert msg[|ExhaustedPrefix|..|msg| - |ExhaustedSuffix|] == Join(models, ", ");
    assert msg[|msg| - |ExhaustedSuffix|..] == ExhaustedSuffix;
    msg
  }

  /** The models one call tries, in order (getDados.py:127, 149-156, 287-294). */
  function Models(env: Env): (models: seq<string>)
    ensures |models| >= 1 && models[0] == PrimaryModel(env.model)
  {
    ModelsToTry(PrimaryModel(env.model), ParseFallbacks(env.fallbacks))
  }

  /** A loop's answer or re-raised error, as `perguntar` passes it on. */
  function Settle(end: End): (a: Answer)
    requires !end.Exhausted?
    ensures end.Returned? <==> a.Answered?
  {
    match end
    case Returned(text) => Answered(text)
    case Raised(e) => Failed(ProviderFailure(e))
  }

  /** The loop that never starts because its entry point is missing. */
  const Skipped := Run(Exhausted(None), [])

  /** The new SDK's part of `perguntar` (getDados.py:135-281). */
  function NewSdkReply(models: seq<string>, prompt: string, maxTokens: int, provider: Request -> Outcome): Reply {
    var run := RunAll(GenerateContent, models, prompt, maxTokens, provider);
    if run.end.Exhausted? then Reply(Failed(AllModelsFailed(ExhaustionMessage(models), run.end.last)), run.calls)
    else Reply(Settle(run.end), run.calls)
  }

  /** The legacy package's part of `perguntar` (getDados.py:283-414). */
  function LegacyReply(hasGenerateText: bool, hasResponses: bool, models: seq<string>, question: string,
                       maxTokens: int, provider: Request -> Outcome): Reply {
    var first := if hasGenerateText then RunAll(GenerateText, models, question, maxTokens, provider) else Skipped;
    if !first.end.Exhausted? then Reply(Settle(first.end), first.calls)
    else
      var second := if hasResponses then RunAll(ResponsesCreate, models, question, maxTokens, provider) else Skipped;
      var calls := first.calls + second.calls;
      if !second.end.Exhausted? then Reply(Settle(second.end), calls)
      else Reply(Failed(NoCompatibleApi(NoCompatibleApiMessage)), calls)
  }

  /** The whole of `perguntar` (getDados.py:109-414) as a specification. */
  function Respond(sdk: Sdk, env: Env, question: string, maxTokens: int, provider: Request -> Outcome): Reply {
    if !Truthy(env.apiKey) && !Truthy(env.credentials) then
      Reply(Failed(MissingCredentials(CredentialsMessage)), [])
    else
      match sdk
      case NewSdk => NewSdkReply(Models(env), ComposePrompt(env.instructions, question), maxTokens, provider)
      case LegacySdk(hasGenerateText, hasResponses) =>
        LegacyReply(hasGenerateText, hasResponses, Models(env), question, maxTokens, provider)
  }

  /** `perguntar` step by step: the credential check (getDados.py:117-123),
      the model list, then one of the two packages' parts. */
  method Perguntar(sdk: Sdk, env: Env, question: string, maxTokens: int, provider: Request -> Outcome)
    returns (reply: Reply)
    ensures reply == Respond(sdk, env, question, maxTokens, provider)
  {
    if !Truthy(env.apiKey) && !Truthy(env.credentials) {
      return Reply(Failed(MissingCredentials(CredentialsMessage)), []);
    }
    var models := Models(env);
    match sdk {
      case NewSdk =>
        var prompt := ComposePrompt(env.instructions, question);
        reply := AskNewSdk(models, prompt, maxTokens, provider);
      case LegacySdk(hasGenerateText, hasResponses) =>
        reply := AskLegacy(hasGenerateText, hasResponses, models, question, maxTokens, provider);
    }
  }

  /** The new SDK's loop and, when it used up every model, the RuntimeError
      naming them with the last retryable error as its cause
      (getDados.py:158-276). */
  method AskNewSdk(models: seq<string>, prompt: string, maxTokens: int, provider: Request -> Outcome)
    returns (reply: Reply)
    ensures reply == NewSdkReply(models, prompt, maxTokens, provider)
  {
    var run := TryInOrder(GenerateContent, models, prompt, maxTokens, provider);
    if run.end.Exhausted? {
      return Reply(Failed(AllModelsFailed(ExhaustionMessage(models), run.end.last)), run.calls);
    }
    return Reply(Settle(run.end), run.calls);
  }

  /** The legacy `generate_text` loop (getDados.py:296-338), then, when it
      used up every model or is missing, the `responses.create` loop
      (340-409), and at last the AttributeError (411-414). */
  method AskLegacy(hasGenerateText: bool, hasResponses: bool, models: seq<string>, question: string,
                   maxTokens: int, provider: Request -> Outcome)
    returns (reply: Reply)
    ensures reply == LegacyReply(hasGenerateText, hasResponses, models, question, maxTokens, provider)
  {
    var calls: seq<Request> := [];
    if hasGenerateText {
      var run := TryInOrder(GenerateText, models, question, maxTokens, provider);
      if !run.end.Exhausted? {
        return Reply(Settle(run.end), run.calls);
      }
      calls := run.calls;
    }
    if hasResponses {
      var run := TryInOrder(ResponsesCreate, models, question, maxTokens, provider);
      calls := calls + run.calls;
      if !run.end.Exhausted? {
        return Reply(Settle(run.end), calls);
      }
    }
    return Reply(Failed(NoCompatibleApi(NoCompatibleApiMessage)), calls);
  }

  /** The exhaustion message names every model tried, and the whole
      ", "-joined list. */
  lemma ExhaustionNamesEveryModel(models: seq<string>, k: nat)
    requires k < |models|
    ensures Contains(ExhaustionMessage(models), models[k])
    ensures Contains(ExhaustionMessage(models), Join(models, ", "))
  {
    var joined := Join(models, ", ");
    JoinContains(models, ", ", k);
    ContainsInConcat(ExhaustedPrefix, joined, models[k]);
    ContainsInConcat(ExhaustedPrefix + joined, ExhaustedSuffix, models[k]);
    assert joined[0..0 + |joined|] == joined;
    ContainsAt(joined, joined, 0);
    ContainsInConcat(ExhaustedPrefix, joined, joined);
    ContainsInConcat(ExhaustedPrefix + joined, ExhaustedSuffix, joined);
  }

  /** With the new SDK, when every model fails with a retryable error, each
      is asked once, in order, and the RuntimeError names them all and
      carries the last model's error as its cause. */
  lemma NewSdkExhausted(models: seq<string>, prompt: string, maxTokens: int, provider: Request -> Outcome)
    requires |models| >= 1
    requires forall k :: 0 <= k < |models| ==> Skips(GenerateContent, provider, RequestFor(GenerateContent, models[k], prompt, maxTokens))
    ensures var reply := NewSdkReply(models, prompt, maxTokens, provider);
      && |reply.calls| == |models|
      && (forall k :: 0 <= k < |models| ==> reply.calls[k] == RequestFor(GenerateContent, models[k], prompt, maxTokens))
      && Skips(GenerateContent, provider, RequestFor(GenerateContent, models[|models| - 1], prompt, maxTokens))
      && reply.answer == Failed(AllModelsFailed(ExhaustionMessage(models),
           Some(provider(RequestFor(GenerateContent, models[|models| - 1], prompt, maxTokens)).error)))
  {
    ExhaustedIff(GenerateContent, models, prompt, maxTokens, provider, None);
    LastCallDecides(GenerateContent, models, prompt, maxTokens, provider, None);
    CallsFollowModels(GenerateContent, models, prompt, maxTokens, provider, None);
  }

  /** With the new SDK, when the first n models fail with retryable errors
      and model n responds, its text is the answer after n + 1 requests. */
  lemma NewSdkAnswersAfterSkips(models: seq<string>, prompt: string, maxTokens: int, provider: Request -> Outcome, n: nat)
    requires n < |models|
    requires forall k :: 0 <= k < n ==> Skips(GenerateContent, provider, RequestFor(GenerateContent, models[k], prompt, maxTokens))
    requires provider(RequestFor(GenerateContent, models[n], prompt, maxTokens)).Ok?
    ensures var reply := NewSdkReply(models, prompt, maxTokens, provider);
      && reply.answer == Answered(ResponseText(GenerateContent, provider(RequestFor(GenerateContent, models[n], prompt, maxTokens)).response))
      && |reply.calls| == n + 1
  {
    AnswerAfterSkips(GenerateContent, models, prompt, maxTokens, provider, None, n);
  }

  /** A name listed twice is asked twice: when every model before position
      j fails retryably and model j repeats the name at position i, the
      same request goes out again. */
  lemma RepeatedNameAskedAgain(models: seq<string>, prompt: string, maxTokens: int, provider: Request -> Outcome,
                               i: nat, j: nat)
    requires i < j < |models| && models[i] == models[j]
    requires forall k :: 0 <= k < j ==> Skips(GenerateContent, provider, RequestFor(GenerateContent, models[k], prompt, maxTokens))
    ensures var calls := NewSdkReply(models, prompt, maxTokens, provider).calls;
      |calls| > j && calls[i] == calls[j]
  {
    CallsFollowModels(GenerateContent, models, prompt, maxTokens, provider, None);
    LastCallDecides(GenerateContent, models, prompt, maxTokens, provider, None);
  }

  /** Every request `perguntar` sends goes to a model of the list, the first
      one to the primary model, all at temperature 0.6 with the configured
      token cap; the new SDK sends the composed prompt, the legacy entry
      points the question as it is. */
  lemma RequestsFollowConfiguration(sdk: Sdk, env: Env, question: string, maxTokens: int, provider: Request -> Outcome)
    ensures var reply := Respond(sdk, env, question, maxTokens, provider);
      var prompt := if sdk.NewSdk? then ComposePrompt(env.instructions, question) else question;
      && (reply.calls != [] ==> reply.calls[0].model == PrimaryModel(env.model))
      && forall k :: 0 <= k < |reply.calls| ==>
           && reply.calls[k].model in Models(env)
           && reply.calls[k].prompt == prompt
           && reply.calls[k].temperature == 0.6
           && reply.calls[k].maxOutputTokens == maxTokens
           && (sdk.NewSdk? <==> reply.calls[k].api == GenerateContent)
  {
    if Truthy(env.apiKey) || Truthy(env.credentials) {
      var models := Models(env);
      match sdk {
        case NewSdk =>
          NewSdkCallsFollowModels(models, ComposePrompt(env.instructions, question), maxTokens, provider);
        case LegacySdk(hasGenerateText, hasResponses) =>
          LegacyCallsFollowModels(hasGenerateText, hasResponses, models, question, maxTokens, provider);
      }
    }
  }

  /** The new SDK's requests: the composed prompt to the models in order. */
  lemma NewSdkCallsFollowModels(models: seq<string>, prompt: string, maxTokens: int, provider: Request -> Outcome)
    requires |models| >= 1
    ensures var calls := NewSdkReply(models, prompt, maxTokens, provider).calls;
      && (calls != [] ==> calls[0].model == models[0])
      && forall k :: 0 <= k < |calls| ==>
           && calls[k].model in models && calls[k].prompt == prompt
           && calls[k].temperature == 0.6 && calls[k].maxOutputTokens == maxTokens
           && calls[k].api == GenerateContent
  {
    CallsFollowModels(GenerateContent, models, prompt, maxTokens, provider, None);
  }

  /** The legacy requests: the `generate_text` ones, then the
      `responses.create` ones, each loop starting again from the first model. */
  lemma LegacyCallsFollowModels(hasGenerateText: bool, hasResponses: bool, models: seq<string>, question: string,
                                maxTokens: int, provider: Request -> Outcome)
    requires |models| >= 1
    ensures var calls := LegacyReply(hasGenerateText, hasResponses, models, question, maxTokens, provider).calls;
      && (calls != [] ==> calls[0].model == models[0])
      && forall k :: 0 <= k < |calls| ==>
           && calls[k].model in models && calls[k].prompt == question
           && calls[k].temperature == 0.6 && calls[k].maxOutputTokens == maxTokens
           && calls[k].api != GenerateContent
  {
    var first := if hasGenerateText then RunAll(GenerateText, models, question, maxTokens, provider) else Skipped;
    var second := if hasResponses then RunAll(ResponsesCreate, models, question, maxTokens, provider) else Skipped;
    CallsFollowModels(GenerateText, models, question, maxTokens, provider, None);
    CallsFollowModels(ResponsesCreate, models, question, maxTokens, provider, None);
    if first.end.Exhausted? {
      var calls := first.calls + second.calls;
      assert forall k :: |first.calls| <= k < |calls| ==> calls[k] == second.calls[k - |first.calls|];
    }
  }

  /** Under the legacy package with both entry points, when every model
      fails retryably under both, `generate_text` is tried on every model,
      then `responses.create` on every model, and the AttributeError follows. */
  lemma LegacyFallsThrough(models: seq<string>, question: string, maxTokens: int, provider: Request -> Outcome)
    requires forall k :: 0 <= k < |models| ==> Skips(GenerateText, provider, RequestFor(GenerateText, models[k], question, maxTokens))
    requires forall k :: 0 <= k < |models| ==> Skips(ResponsesCreate, provider, RequestFor(ResponsesCreate, models[k], question, maxTokens))
    ensures var reply := LegacyReply(true, true, models, question, maxTokens, provider);
      && reply.answer == Failed(NoCompatibleApi(NoCompatibleApiMessage))
      && |reply.calls| == 2 * |models|
      && (forall k :: 0 <= k < |models| ==> reply.calls[k] == RequestFor(GenerateText, models[k], question, maxTokens))
      && (forall k :: 0 <= k < |models| ==> reply.calls[|models| + k] == RequestFor(ResponsesCreate, models[k], question, maxTokens))
  {
    ExhaustedIff(GenerateText, models, question, maxTokens, provider, None);
    ExhaustedIff(ResponsesCreate, models, question, maxTokens, provider, None);
    LastCallDecides(GenerateText, models, question, maxTokens, provider, None);
    LastCallDecides(ResponsesCreate, models, question, maxTokens, provider, None);
    CallsFollowModels(GenerateText, models, question, maxTokens, provider, None);
    CallsFollowModels(ResponsesCreate, models, question, maxTokens, provider, None);
  }

  /** The entry point `perguntar` calls first under each package: the new
      SDK's `generate_content`, else the legacy `generate_text` when present,
      else `responses.create`. */
  function EntryPoint(sdk: Sdk): (api: Api)
    ensures api == GenerateContent <==> sdk.NewSdk?
    ensures api == GenerateText <==> sdk.LegacySdk? && sdk.hasGenerateText
  {
    if sdk.NewSdk? then GenerateContent else if sdk.hasGenerateText then GenerateText else ResponsesCreate
  }

  /** A fatal error from the primary model ends `perguntar` after one
      request, whichever entry point is called first. */
  lemma FatalPrimaryStops(sdk: Sdk, env: Env, question: string, maxTokens: int, provider: Request -> Outcome)
    requires Truthy(env.apiKey) || Truthy(env.credentials)
    requires sdk.LegacySdk? ==> sdk.hasGenerateText || sdk.hasResponses
    requires var api := EntryPoint(sdk);
      var prompt := if sdk.NewSdk? then ComposePrompt(env.instructions, question) else question;
      var o := provider(RequestFor(api, PrimaryModel(env.model), prompt, maxTokens));
      o.Err? && !Retryable(api, o.error)
    ensures var api := EntryPoint(sdk);
      var prompt := if sdk.NewSdk? then ComposePrompt(env.instructions, question) else question;
      var reply := Respond(sdk, env, question, maxTokens, provider);
      && reply.answer == Failed(ProviderFailure(provider(RequestFor(api, PrimaryModel(env.model), prompt, maxTokens)).error))
      && |reply.calls| == 1
  {
  }

  /** The credential error is raised exactly when neither credential is
      set, and then before any request. */
  lemma CredentialsChecked(sdk: Sdk, env: Env, question: string, maxTokens: int, provider: Request -> Outcome)
    ensures var reply := Respond(sdk, env, question, maxTokens, provider);
      (reply.answer.Failed? && reply.answer.failure.MissingCredentials?)
        <==> !Truthy(env.apiKey) && !Truthy(env.credentials)
    ensures !Truthy(env.apiKey) && !Truthy(env.credentials) ==> Respond(sdk, env, question, maxTokens, provider).calls == []
  {
  }

  /** A legacy package with neither entry point also fails without a
      request, with the AttributeError. */
  lemma NoEntryPoint(env: Env, question: string, maxTokens: int, provider: Request -> Outcome)
    requires Truthy(env.apiKey) || Truthy(env.credentials)
    ensures Respond(LegacySdk(false, false), env, question, maxTokens, provider)
      == Reply(Failed(NoCompatibleApi(NoCompatibleApiMessage)), [])
  {
  }
}
