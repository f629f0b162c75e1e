/**
 * The ordered retry loop shared by the three entry points: call each model
 * in turn, return the first answer, move on after a retryable error, and
 * re-raise any other error at once.
 */
module Retry {

  import opened Wrappers
  import opened Provider
  import opened Classify
  import opened Extract

  /** The request sent for model `m`: always at temperature 0.6 and with
      the configured output-token cap (getDados.py:141-144, 174-178,
      301-306, 345-350). */
  function RequestFor(api: Api, m: string, prompt: string, maxTokens: int): (q: Request)
    ensures q.api == api && q.model == m && q.prompt == prompt
    ensures q.maxOutputTokens == maxTokens && q.temperature == 0.6
  {
    Request(api, m, prompt, maxTokens, Temperature)
  }

  /** How one loop over the models ends: with an answer, with an error that
      is re-raised, or by running out of models (carrying the last
      retryable error, the `from last_not_found_exc` cause). */
  datatype End = Returned(text: string) | Raised(error: ProviderError) | Exhausted(last: Option<ProviderError>)

  /** How a loop ended, and the requests it sent, in order. */
  datatype Run = Run(end: End, calls: seq<Request>)

  /** The request to model `m` fails with an error the entry point retries. */
  predicate Skips(api: Api, provider: Request -> Outcome, q: Request) {
    provider(q).Err? && Retryable(api, provider(q).error)
  }

  /** The loop's specification over the models still to try, with `last`
      the last retryable error seen so far. */
  function RunFrom(api: Api, models: seq<string>, prompt: string, maxTokens: int,
                   provider: Request -> Outcome, last: Option<ProviderError>): Run
    decreases |models|
  {
    if models == [] then Run(Exhausted(last), [])
    else
      var q := RequestFor(api, models[0], prompt, maxTokens);
      match provider(q)
      case Ok(resp) => Run(Returned(ResponseText(api, resp)), [q])
      case Err(e) =>
        if Retryable(api, e) then
          var rest := RunFrom(api, models[1..], prompt, maxTokens, provider, Some(e));
          Run(rest.end, [q] + rest.calls)
        else Run(Raised(e), [q])
  }

  /** A loop over all of `models`, as the source starts it. */
  function RunAll(api: Api, models: seq<string>, prompt: string, maxTokens: int,
                  provider: Request -> Outcome): Run
  {
    RunFrom(api, models, prompt, maxTokens, provider, None)
  }

  /** The loop (getDados.py:158-263, 296-338, 340-409): one request per
      model, an early return on the first response, an immediate re-raise
      of an error that is not retryable. */
  method TryInOrder(api: Api, models: seq<string>, prompt: string, maxTokens: int,
                    provider: Request -> Outcome) returns (run: Run)
    ensures run == RunAll(api, models, prompt, maxTokens, provider)
  {
    var calls: seq<Request> := [];
    var last: Option<ProviderError> := None;
    var i := 0;
    while i < |models|
      invariant 0 <= i <= |models|
      invariant var r := RunFrom(api, models[i..], prompt, maxTokens, provider, last);
        Run(r.end, calls + r.calls) == RunAll(api, models, prompt, maxTokens, provider)
    {
      var q := RequestFor(api, models[i], prompt, maxTokens);
      assert models[i..][0] == models[i] && models[i..][1..] == models[i + 1..];
      ghost var before := calls;
      calls := calls + [q];
      var outcome := provider(q);
      match outcome {
        case Ok(resp) =>
          var text := ReadResponse(api, resp);
          return Run(Returned(text), calls);
        case Err(e) =>
          if !Retryable(api, e) {
            return Run(Raised(e), calls);
          }
          last := Some(e);
          assert before + ([q] + RunFrom(api, models[i + 1..], prompt, maxTokens, provider, last).calls)
              == calls + RunFrom(api, models[i + 1..], prompt, maxTokens, provider, last).calls;
      }
      i := i + 1;
    }
    return Run(Exhausted(last), calls);
  }

  /** The k-th request goes to the k-th model of the list: no position is
      asked twice by one loop. */
  lemma {:induction false} CallsFollowModels(api: Api, models: seq<string>, prompt: string, maxTokens: int,
                                             provider: Request -> Outcome, last: Option<ProviderError>)
    ensures var r := RunFrom(api, models, prompt, maxTokens, provider, last);
      && |r.calls| <= |models|
      && (models != [] ==> |r.calls| >= 1)
      && forall k :: 0 <= k < |r.calls| ==> r.calls[k] == RequestFor(api, models[k], prompt, maxTokens)
    decreases |models|
  {
    if models != [] {
      match provider(RequestFor(api, models[0], prompt, maxTokens)) {
        case Ok(_) =>
        case Err(e) =>
          if Retryable(api, e) {
            CallsFollowModels(api, models[1..], prompt, maxTokens, provider, Some(e));
          }
      }
    }
  }

  /** Every request but the last one failed with a retryable error, and the
      last request decides how the loop ended: its response is read, its
      fatal error is re-raised, or, after a retryable error, the models are
      used up and that error is the cause carried out of the loop. */
  lemma {:induction false} LastCallDecides(api: Api, models: seq<string>, prompt: string, maxTokens: int,
                                           provider: Request -> Outcome, last: Option<ProviderError>)
    ensures var r := RunFrom(api, models, prompt, maxTokens, provider, last);
      && (forall k :: 0 <= k < |r.calls| - 1 ==> Skips(api, provider, r.calls[k]))
      && (r.calls == [] ==> r.end == Exhausted(last))
      && (r.calls != [] ==>
            var o := provider(r.calls[|r.calls| - 1]);
            match o
            case Ok(resp) => r.end == Returned(ResponseText(api, resp))
            case Err(e) =>
              if Retryable(api, e) then r.end == Exhausted(Some(e)) && |r.calls| == |models|
              else r.end == Raised(e))
    decreases |models|
  {
    if models != [] {
      var q := RequestFor(api, models[0], prompt, maxTokens);
      match provider(q) {
        case Ok(_) =>
        case Err(e) =>
          if Retryable(api, e) {
            var rest := RunFrom(api, models[1..], prompt, maxTokens, provider, Some(e));
            LastCallDecides(api, models[1..], prompt, maxTokens, provider, Some(e));
            CallsFollowModels(api, models[1..], prompt, maxTokens, provider, Some(e));
            assert Skips(api, provider, q);
            assert forall k :: 1 <= k < |rest.calls| + 1 ==> ([q] + rest.calls)[k] == rest.calls[k - 1];
          }
      }
    }
  }

  /** The loop runs out of models exactly when every model fails with a
      retryable error. */
  lemma {:induction false} ExhaustedIff(api: Api, models: seq<string>, prompt: string, maxTokens: int,
                                        provider: Request -> Outcome, last: Option<ProviderError>)
    ensures RunFrom(api, models, prompt, maxTokens, provider, last).end.Exhausted?
      <==> forall k :: 0 <= k < |models| ==> Skips(api, provider, RequestFor(api, models[k], prompt, maxTokens))
    decreases |models|
  {
    if models != [] {
      var q := RequestFor(api, models[0], prompt, maxTokens);
      ExhaustedIff(api, models[1..], prompt, maxTokens, provider, if provider(q).Err? then Some(provider(q).error) else last);
      assert forall k :: 1 <= k < |models| ==> models[1..][k - 1] == models[k];
    }
  }

  /** After n retryable failures, a response from model n is the answer and
      exactly n + 1 requests were sent. */
  lemma {:induction false} AnswerAfterSkips(api: Api, models: seq<string>, prompt: string, maxTokens: int,
                                            provider: Request -> Outcome, last: Option<ProviderError>, n: nat)
    requires n < |models|
    requires forall k :: 0 <= k < n ==> Skips(api, provider, RequestFor(api, models[k], prompt, maxTokens))
    requires provider(RequestFor(api, models[n], prompt, maxTokens)).Ok?
    ensures var r := RunFrom(api, models, prompt, maxTokens, provider, last);
      && r.end == Returned(ResponseText(api, provider(RequestFor(api, models[n], prompt, maxTokens)).response))
      && |r.calls| == n + 1
    decreases n
  {
    if n > 0 {
      var q := RequestFor(api, models[0], prompt, maxTokens);
      assert Skips(api, provider, q);
      assert forall k :: 0 <= k < |models| - 1 ==> models[1..][k] == models[k + 1];
      AnswerAfterSkips(api, models[1..], prompt, maxTokens, provider, Some(provider(q).error), n - 1);
    }
  }

  /** After n retryable failures, a fatal error from model n is re-raised
      and no later model is asked. */
  lemma {:induction false} RaiseAfterSkips(api: Api, models: seq<string>, prompt: string, maxTokens: int,
                                           provider: Request -> Outcome, last: Option<ProviderError>, n: nat)
    requires n < |models|
    requires forall k :: 0 <= k < n ==> Skips(api, provider, RequestFor(api, models[k], prompt, maxTokens))
    requires provider(RequestFor(api, models[n], prompt, maxTokens)).Err?
    requires !Retryable(api, provider(RequestFor(api, models[n], prompt, maxTokens)).error)
    ensures var r := RunFrom(api, models, prompt, maxTokens, provider, last);
      && r.end == Raised(provider(RequestFor(api, models[n], prompt, maxTokens)).error)
      && |r.calls| == n + 1
    decreases n
  {
    if n > 0 {
      var q := RequestFor(api, models[0], prompt, maxTokens);
      assert Skips(api, provider, q);
      assert forall k :: 0 <= k < |models| - 1 ==> models[1..][k] == models[k + 1];
      RaiseAfterSkips(api, models[1..], prompt, maxTokens, provider, Some(provider(q).error), n - 1);
    }
  }
}
