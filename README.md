# perguntar: ordered model fallback for a Gemini question

`getDados.py` exposes `perguntar(pergunta)`, which sends one question to a
Gemini model and returns the answer text. The function works as follows:

- It checks that a credential is configured.
- It builds the ordered list of models to try: the primary model from
  `GENAI_MODEL`, then the fallbacks from `GENAI_FALLBACK_MODELS` or a
  built-in list.
- It calls the models one at a time through whichever package is
  installed:
  - the new `google-genai` SDK, using `generate_content`;
  - or the legacy `google-generativeai` package, using `generate_text`
    and then `responses.create`.
- An error the entry point counts as retryable moves on to the next
  model. Any other error is re-raised at once. The new SDK and
  `generate_text` retry "model not found" and "quota" errors.
  `responses.create` retries only "model not found" errors, so it
  re-raises a quota error.
- The first response is turned into text through a fixed chain of
  fields. When no field gives text, `str(resp)` is the answer.
- When every model fails under the new SDK, it raises a `RuntimeError`
  naming all the models (`getDados.py:274-276`). When every model fails
  under both legacy entry points, or the legacy package has neither, it
  raises an `AttributeError` that names no model (`getDados.py:412-414`).

The model is a Dafny project, one module per part of that function:

| file | module | what it holds |
|---|---|---|
| `wrappers.dfy` | `Wrappers` | `Option`: a Python value that is either missing/`None` or present |
| `pystr.dfy` | `PyStr` | the Python string operations the code relies on: truthiness, `strip`, `split`, `join`, `in`, `lower` |
| `provider.dfy` | `Provider` | requests, responses and errors of the three provider entry points |
| `candidates.dfy` | `Candidates` | parsing `GENAI_FALLBACK_MODELS` and building `models_to_try` |
| `classify.dfy` | `Classify` | the three rules that decide whether an error moves on to the next model |
| `prompt.dfy` | `Prompt` | the `INSTRUCTIONS:` / `USER_QUESTION:` prompt of the new SDK |
| `extract.dfy` | `Extract` | the field chain and the `output` fragment scan that turn a response into text |
| `retry.dfy` | `Retry` | the ordered loop over the models |
| `ask.dfy` | `Ask` | `perguntar` itself |

The provider is a parameter: a function from the request sent to the
outcome, either a response or a raised error. Every request the model
sends is recorded, so the contracts can speak about how many calls were
made and what each call carried. `str(resp)` is the response's `printed`
field. A missing attribute and a `None` attribute are both `None` in
`Option`.

The imperative parts of the code are Dafny methods, each proved equal to a
specification function:

- the retry loop: `Retry.TryInOrder` against `Retry.RunAll`, with a loop
  invariant;
- the two fragment-scan loops: `Extract.ScanFragments` and
  `Extract.ScanContent` against `Extract.Fragments` and
  `Extract.ContentTexts`, with loop invariants;
- the response reading, a chain of branches without a loop:
  `Extract.ReadResponse` against `Extract.ResponseText`;
- the whole call, which dispatches to the loops: `Ask.Perguntar` against
  `Ask.Respond`.

The lemmas then state what the code promises about those functions.

Three behaviours of the code are worth stating plainly, because the model
follows them:

- Only the primary model is removed from the fallbacks
  (`getDados.py:156`). A name listed twice among the fallbacks therefore
  stays twice in `models_to_try`. `Candidates.ModelsToTry` keeps the
  counts, and `Ask.RepeatedNameAskedAgain` shows that the repeated name
  is requested again.
- The truncation test at `getDados.py:235-243` only logs. The answer is
  the text alone.
- The `RuntimeError` raised at `getDados.py:270` is always caught by the
  `except Exception` at line 273. The one raised at lines 274-276
  replaces it, so the error that escapes always carries the
  "Falha ao listar modelos" text.

## Model

| member | source | states |
|---|---|---|
| PyStr.Strip | getDados.py:151 | `m.strip()`: the result has no leading and no trailing whitespace, for Python's full `isspace` set |
| PyStr.TrimStartSpec | getDados.py:151 | the leading cut of `strip` removes only whitespace, and what is left is a suffix of the input that does not start with whitespace |
| PyStr.TrimEndSpec | getDados.py:151 | the trailing cut of `strip` removes only whitespace, and what is left is a prefix of the input that does not end with whitespace |
| PyStr.StripSlice | getDados.py:151 | `strip` returns one contiguous slice of its input, and everything cut off on either side is whitespace |
| PyStr.StripEmptyIff | getDados.py:151 | `if m.strip()` is false exactly when the entry is all whitespace |
| PyStr.StripKeepsAbsent | getDados.py:151 | a character absent from the input is absent from its stripped form |
| PyStr.StripTrimmed | getDados.py:151 | an already stripped string is left unchanged |
| PyStr.StripIdempotent | getDados.py:151 | stripping twice equals stripping once |
| PyStr.Split | getDados.py:151 | `s.split(",")` gives at least one piece, and no piece contains the separator |
| PyStr.JoinSplit | getDados.py:151 | joining the pieces of `split(c)` with `c` gives the input back |
| PyStr.SplitJoin | getDados.py:217 | splitting a `c`-join of at least one piece free of `c` gives the pieces back |
| PyStr.SplitNoSeparator | getDados.py:151 | a string without the separator splits into itself alone |
| PyStr.ContainsIff | getDados.py:252-254 | `sub in s` holds exactly when `sub` occurs at some index of `s` |
| PyStr.JoinContains | getDados.py:274-276 | every element occurs in the list joined with any separator |
| PyStr.Lower | getDados.py:254 | the ASCII fold that stands for `str(e).lower()` keeps the length of its input |
| PyStr.LowerKeepsOccurrences | getDados.py:254 | an occurrence of `w` in `s` is an occurrence of `w.lower()` in `s.lower()` |
| PyStr.LowerIdempotent | getDados.py:254 | lowering twice equals lowering once |
| Candidates.PrimaryModel | getDados.py:127 | `GENAI_MODEL` when set, used as it is even when empty; `"gemini-pro-latest"` otherwise |
| Candidates.KeepNonBlank | getDados.py:151 | keeps at most as many entries as it is given, each non-empty and stripped |
| Candidates.ParseOverride | getDados.py:151 | every parsed fallback name is non-empty, stripped and free of commas |
| Candidates.ParseFallbacks | getDados.py:149-154 | an unset or empty `GENAI_FALLBACK_MODELS` gives the built-in list of five; a set one gives well-formed names only |
| Candidates.KeepNonBlankFromPieces | getDados.py:151 | a character absent from every piece is absent from every kept name |
| Candidates.Without | getDados.py:156 | the primary no longer occurs, and every other name occurs as often as among the fallbacks |
| Candidates.ModelsToTry | getDados.py:156 | the primary is first and occurs once; every other name keeps its number of occurrences among the fallbacks, duplicates included |
| Candidates.WithoutKeepsOrder | getDados.py:156 | the fallbacks that remain keep their relative order |
| Candidates.WithoutAbsent | getDados.py:156 | fallbacks that do not contain the primary are kept whole |
| Candidates.CandidatesInOrder | getDados.py:156 | after the primary, the list is a subsequence of the fallbacks, and it is exactly primary + fallbacks when the primary is not among them |
| Candidates.PrimaryOnlyFirst | getDados.py:156 | the primary occurs at no position after the first |
| Candidates.ParseRoundTrip | getDados.py:151 | parsing a comma-join of well-formed names gives the names back |
| Candidates.KeepNonBlankWellFormed | getDados.py:151 | a list of well-formed names passes the blank filter unchanged |
| Candidates.BlankOverrideGivesNoFallbacks | getDados.py:150-151 | a variable made only of whitespace and commas gives no fallbacks at all, not the built-in list |
| Candidates.AllBlankKeepsNothing | getDados.py:151 | pieces that all strip to "" leave nothing |
| Candidates.KeepNonBlankPadded | getDados.py:151 | when no piece is blank, every piece is kept, stripped, in its place |
| Candidates.KeepNonBlankAppend | getDados.py:151 | the filter works piece by piece: filtering two lists one after the other is the concatenation of their filterings |
| Candidates.ParseOverrideJoin | getDados.py:151 | parsing a comma-join of comma-free entries is the blank filter applied to the entries |
| Candidates.ParsePaddedList | getDados.py:151 | a list written with whitespace around its names, such as "a, b", gives the stripped names in order |
| Classify.OnlyClientErrorsRetry | getDados.py:250 | under the new SDK, an error that is not a `ClientError` is never retried, whatever its code or text |
| Classify.StatusCodeSuffices | getDados.py:251-255 | under the new SDK, a `ClientError` with code 404 or 429 is retried whatever its text |
| Classify.QuotaInAnyCase | getDados.py:254 | under the new SDK, a `ClientError` whose text contains any spelling that lowers to "quota" is retried |
| Classify.NotFoundInAnyCase | getDados.py:336 | any spelling that lowers to "not found" is retried by both legacy rules (lines 336 and 406) |
| Classify.RulesNested | getDados.py:336 | what `responses.create` retries, `generate_text` retries too, as does every new-SDK retry that is not decided by the status code |
| Classify.MissingCharExcludes | getDados.py:252 | a text lacking one character of a marker does not contain that marker |
| Classify.LowerNoCapitals | getDados.py:254 | `lower()` leaves a text without capitals unchanged |
| Classify.RulesDisagreeOnPlainNotFound | getDados.py:250-255 | a lower-case "not found" text without a 'q' and without code 404 or 429 is fatal under the new SDK but retried under both legacy rules |
| Classify.QuotaFatalUnderResponses | getDados.py:406 | a "quota" error that does not say "not found" is retried by `generate_text` (line 336) and, as a `ClientError`, by the new SDK (line 254), but re-raised by `responses.create` |
| Classify.LowerCaseQuotaIsOne | getDados.py:406 | a lower-case text containing "quota" and no letter 'n' meets the conditions of `QuotaFatalUnderResponses`: it contains "quota" once lowered, and neither "NOT_FOUND" nor a "not found" in any case |
| Prompt.ComposePrompt | getDados.py:166-172 | without truthy instructions the question is sent as it is; with them the prompt starts with the INSTRUCTIONS / USER_QUESTION header, ends with the question, and has exactly their combined length (31 characters more than instructions and question) |
| Prompt.ComposeInjective | getDados.py:169 | under the same instructions, different questions give different prompts |
| Extract.PieceTexts | getDados.py:205-215 | a piece adds one text when it is typed "output_text" or has a truthy text, and none otherwise; the text added is the piece's own text, or "" when it has none |
| Extract.ContentTextsAllText | getDados.py:205-215 | when every piece of an item has a truthy text, the item gives exactly those texts, in order |
| Extract.FragmentsAllText | getDados.py:198-215 | when every piece of every item has a truthy text, the scan collects exactly those texts, item by item and piece by piece |
| Extract.ScanFragments | getDados.py:198-215 | the loops over `output` and each item's `content` collect exactly the fragments of the specification, in order |
| Extract.ScanContent | getDados.py:205-215 | the inner loop collects exactly the contributing pieces of one item, in order |
| Extract.FragmentsAppend | getDados.py:199-215 | the scan of two item lists one after the other is the concatenation of their scans |
| Extract.ContentTextsEmptyIff | getDados.py:205-215 | an item gives no text exactly when none of its pieces contributes |
| Extract.FragmentsEmptyIff | getDados.py:216-217 | `texts` stays empty exactly when no piece of any item contributes |
| Extract.ReadResponse | getDados.py:186-220 | the field-by-field extraction of all three entry points returns the text the priority chain specifies, or `str(resp)` |
| Extract.OutputTextWins | getDados.py:187-188 | a truthy `output_text` is the answer, whatever the other fields hold |
| Extract.NewSdkFallsBackIff | getDados.py:219-220 | under the new SDK, `str(resp)` is used exactly when `output_text` and `text` are not truthy and either the first candidate has no content or, without candidates, no piece contributes |
| Extract.CandidatesShadowOutput | getDados.py:191-196 | once there are candidates, `output` no longer affects the answer |
| Extract.FragmentsJoinedInOrder | getDados.py:216-217 | when the answer comes from the fragments and none holds a newline, splitting it on "\n" gives the fragments back in order |
| Extract.EmptyFragmentIsAnAnswer | getDados.py:212-213 | under the new SDK and `responses.create`, a response whose only content piece is an "output_text" piece with no text answers "", not `str(resp)` |
| Retry.RequestFor | getDados.py:139-146 | each request carries its entry point, the model, the prompt, the configured token cap and temperature 0.6 |
| Retry.TryInOrder | getDados.py:158-263 | the loop (also at 296-338 and 340-409) ends, and records its requests, exactly as the loop specification says |
| Retry.CallsFollowModels | getDados.py:159 | the k-th request goes to the k-th model; a non-empty list gets at least one request and never more requests than models |
| Retry.LastCallDecides | getDados.py:245-263 | every request before the last failed retryably; the last one decides the end: its text is returned, its fatal error is re-raised, or, after a retryable error, all models were asked and that error is carried out as the cause |
| Retry.ExhaustedIff | getDados.py:259-261 | the loop uses up the models exactly when every model fails with a retryable error |
| Retry.AnswerAfterSkips | getDados.py:245 | after n retryable failures, the response of model n is the answer after exactly n + 1 requests |
| Retry.RaiseAfterSkips | getDados.py:262-263 | after n retryable failures, a fatal error from model n is re-raised after exactly n + 1 requests |
| Ask.ExhaustionMessage | getDados.py:274-276 | the message is the fixed prefix, then the models joined with ", ", then the fixed suffix |
| Ask.ExhaustionNamesEveryModel | getDados.py:274-276 | the exhaustion message names every model tried, and contains the whole ", "-joined list |
| Ask.Models | getDados.py:156 | the list of models is never empty and starts with the primary model |
| Ask.Settle | getDados.py:245 | a loop that ended returns an answer exactly when it got a response |
| Ask.Perguntar | getDados.py:109-414 | the function's steps give exactly the reply of the `perguntar` specification |
| Ask.AskNewSdk | getDados.py:158-276 | the new SDK's loop, then the exhaustion error carrying the last retryable error, give exactly the specified reply |
| Ask.AskLegacy | getDados.py:296-414 | the `generate_text` loop, then the `responses.create` loop, then the AttributeError, give exactly the specified reply |
| Ask.NewSdkExhausted | getDados.py:265-276 | when every model fails retryably, each is asked once and in order, and the `RuntimeError` names them all and carries the last model's error as its cause |
| Ask.NewSdkAnswersAfterSkips | getDados.py:245 | after n retryable failures, model n's response text is the answer, after n + 1 requests |
| Ask.RepeatedNameAskedAgain | getDados.py:156-159 | a model name listed twice is requested twice when the models before its second position fail retryably |
| Ask.RequestsFollowConfiguration | getDados.py:139-178 | every request goes to a model of the list, the first to the primary model, at temperature 0.6 with the configured cap; the new SDK sends the composed prompt and the legacy entry points send the question as it is |
| Ask.NewSdkCallsFollowModels | getDados.py:174-178 | the new SDK's requests are `generate_content` calls with the composed prompt to models of the list, the first to its head |
| Ask.LegacyCallsFollowModels | getDados.py:301-352 | the legacy requests are `generate_text` or `responses.create` calls with the question as it is, to models of the list, the first to its head |
| Ask.LegacyFallsThrough | getDados.py:296-414 | when every model fails retryably under both legacy rules, `generate_text` is tried on all models, then `responses.create` on all models, then the AttributeError is raised |
| Ask.FatalPrimaryStops | getDados.py:262-263 | a fatal error from the primary model ends the call after one request, with that error, under the new SDK and under a legacy package with `generate_text` or only `responses.create` (lines 338 and 409) |
| Ask.CredentialsChecked | getDados.py:117-123 | the credential error is raised exactly when neither `GOOGLE_API_KEY` nor `GOOGLE_APPLICATION_CREDENTIALS` is truthy, and then before any request |
| Ask.NoEntryPoint | getDados.py:296-414 | a legacy package with neither `generate_text` nor `responses.create` raises the AttributeError without sending a request |

## Left out

- Package imports, `dotenv` loading, logging, OpenTelemetry spans and the Traceloop workflow decorator (`getDados.py:1-107`). These are side effects that do not change the answer.
- The span attributes, log lines and the 256-character instruction snippet inside each attempt (`getDados.py:161-162`, `168`, `179-184`, `222-243` and the matching legacy lines). They are observability only.
- The possible-truncation check (`getDados.py:234-243`, `322-332`, `392-402`). It only logs.
- Parsing `GENAI_MAX_OUTPUT_TOKENS` with `int(...)` and its default of 65536 (`getDados.py:129-133`). The parsed cap is an input of the model, because Python's `int` parsing of text is not part of this model.
- Creating and closing the client, and the call to `client.models.list` (`getDados.py:137`, `266-269`, `277-281`). The `RuntimeError` raised at `getDados.py:270` never escapes, because the `except Exception` at line 273 replaces it, so the listing cannot change the outcome.
- `listar_modelos` and the `__main__` block (`getDados.py:417-468`). They are not part of `perguntar`.
- Choosing between the packages at import time (`NEW_GENAI`) and the `hasattr` probes for `generate_text` and `responses.create`. They are the `Sdk` input of the model.
- `GENAI_INSTRUCTIONS` is read on every attempt (`getDados.py:166`). The environment does not change during a call, so the prompt is composed once.
- Provider.Candidate: the first candidate's `content` is a string or missing. A content object that is not a string makes the source fail on `len()` after extraction. A content present but `None` makes the legacy `generate_text` path fail on `len(None)` instead of using `str(resp)`. Neither is modelled.
- Provider.Piece: a piece whose `text` is present but `None` is treated like a missing text. The source would append `None` and then fail in `"\n".join`.
- Exceptions raised by the extraction or the logging code itself (for example `len` of a non-string, or a `None` `output`) are not modelled. Only errors returned by the provider are.
- PyStr.Lower: folds only 'A'-'Z'. This is exact for every use here. The only non-ASCII characters whose Python lower case contains ASCII letters are U+0130 and U+212A, which lower to "i" + U+0307 and "k". Neither can complete "quota" or "not found", and no ASCII letter is added or removed otherwise.
- Provider: the provider is a function of the request, so the same request always gets the same outcome. A name listed twice therefore fails the same way both times, and a transient error such as a 429 that clears by a later identical request cannot be expressed.
