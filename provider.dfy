/**
 * What the requester exchanges with the hosted generation service, as
 * plain values. The service itself is an oracle `Request -> Outcome`
 * supplied by the caller.
 */
module Provider {

  import opened Wrappers

  /** The three SDK entry points `perguntar` may call: the new SDK's
      `client.models.generate_content`, and the legacy package's
      `genai.generate_text` and `genai.responses.create`. */
  datatype Api = GenerateContent | GenerateText | ResponsesCreate

  /** One call to the service. */
  datatype Request = Request(api: Api, model: string, prompt: string, maxOutputTokens: int, temperature: real)

  /** The sampling temperature every call uses. */
  const Temperature: real := 0.6

  /** One element of an output item's `content`: its `type` tag and its
      `text`, each of which may be missing. */
  datatype Piece = Piece(kind: Option<string>, text: Option<string>)

  /** One element of a response's `output` list; a missing `content` is empty. */
  datatype Item = Item(content: seq<Piece>)

  /** One element of a response's `candidates`; `content` is `None` when it
      is missing or when reading it raises. */
  datatype Candidate = Candidate(content: Option<string>)

  /** A response with every field `perguntar` probes. A missing field is
      `None` or empty; `printed` is what `str(resp)` yields. */
  datatype Response = Response(
    outputText: Option<string>,
    text: Option<string>,
    candidates: seq<Candidate>,
    output: seq<Item>,
    printed: string)

  /** An exception raised by the service: whether it is the new SDK's
      `ClientError`, its `code` attribute, and its `str()`. */
  datatype ProviderError = ProviderError(isClientError: bool, code: Option<int>, message: string)

  datatype Outcome = Ok(response: Response) | Err(error: ProviderError)
}
