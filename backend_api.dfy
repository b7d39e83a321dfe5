/**
 * The FastAPI backend (api/app.py): the API-key checks of `chat`,
 * `chat_structured`, `validate_api_key` and `test_endpoint`, the classifier
 * that turns an upstream error message into an HTTP error, the dispatch of
 * `chat` between its structured and its streaming branch, and the `generate`
 * relay of the streaming branch.
 *
 * The OpenAI client is not modelled: what each call does is a parameter.
 * Raising `HTTPException(status, detail)` is modelled as returning an
 * `HttpError` value.
 */
module BackendApi {
  import opened Wrappers
  import opened Text
  import ChatRoute

  datatype HttpError = HttpError(status: nat, detail: string)

  const KeyPrefix: string := "sk-"
  const MinKeyLength: nat := 20

  const InvalidFormat: string := "Invalid API key format. OpenAI API keys should start with 'sk-'"
  const TooShort: string := "API key appears to be too short. Please check your OpenAI API key."
  const KeyRequired: string := "API key is required"
  const InvalidKey: string := "Invalid OpenAI API key. Please check your API key and try again."
  const RateLimited: string := "Rate limit exceeded. Please try again later."
  const NoQuota: string := "Insufficient API quota. Please check your OpenAI account billing."
  const ChatErrorPrefix: string := "An error occurred: "
  const ValidationErrorPrefix: string := "API key validation failed: "
  const ParseErrorPrefix: string := "Failed to parse JSON response: "
  const ShapeErrorPrefix: string := "Failed to create structured response: "

  /** The message pydantic gives a string shorter than its `min_length` of 20. */
  const FieldTooShort: string := "String should have at least 20 characters"

  // ---------------------------------------------------------------------------
  // Key checks.

  /**
   * The two checks `chat` and `chat_structured` make, in this order: the
   * `sk-` prefix first, then the length of at least 20 characters.
   */
  function KeyError(apiKey: string): (e: Option<HttpError>)
    ensures e.None? <==> StartsWith(apiKey, KeyPrefix) && |apiKey| >= MinKeyLength
    ensures e.Some? ==> e.value.status == 400
    ensures e == Some(HttpError(400, TooShort)) <==> StartsWith(apiKey, KeyPrefix) && |apiKey| < MinKeyLength
  {
    if !StartsWith(apiKey, KeyPrefix) then Some(HttpError(400, InvalidFormat))
    else if |apiKey| < MinKeyLength then Some(HttpError(400, TooShort))
    else None
  }

  /** The prefix check comes first: a key without `sk-` gets the format message whatever its length. */
  lemma PrefixCheckedFirst(apiKey: string)
    requires !StartsWith(apiKey, KeyPrefix)
    ensures KeyError(apiKey) == Some(HttpError(400, InvalidFormat))
  {
  }

  /**
   * `ChatRequest` declares `api_key` with `min_length=20`, so FastAPI
   * answers 422 before the handler runs when the key is shorter.
   */
  function RequestError(apiKey: string): (e: Option<HttpError>)
    ensures e.Some? <==> |apiKey| < MinKeyLength
  {
    if |apiKey| < MinKeyLength then Some(HttpError(422, FieldTooShort)) else None
  }

  /**
   * What `chat` and `chat_structured` answer before they call upstream: the
   * request validation, then the handler's checks.
   */
  function ChatKeyError(apiKey: string): Option<HttpError>
  {
    if RequestError(apiKey).Some? then RequestError(apiKey) else KeyError(apiKey)
  }

  /**
   * Behind the request validation the handler's length check never fires:
   * a short key is refused with 422, a long key without `sk-` with the
   * format message, and the "too short" message is never sent.
   */
  lemma TooShortUnreachable(apiKey: string)
    ensures ChatKeyError(apiKey) != Some(HttpError(400, TooShort))
    ensures |apiKey| < MinKeyLength ==> ChatKeyError(apiKey) == Some(HttpError(422, FieldTooShort))
    ensures ChatKeyError(apiKey).None? <==> StartsWith(apiKey, KeyPrefix) && |apiKey| >= MinKeyLength
  {
  }

  /** Python truthiness of the key `request.get("api_key", "")`: missing, null and empty are false. */
  predicate Truthy(apiKey: Option<string>)
  {
    apiKey.Some? && apiKey.value != ""
  }

  /** The checks of `validate_api_key`: an empty key first, then the same two checks as `chat`. */
  function ValidateKeyError(apiKey: Option<string>): Option<HttpError>
  {
    if !Truthy(apiKey) then Some(HttpError(400, KeyRequired)) else KeyError(apiKey.value)
  }

  /**
   * A key `validate_api_key` lets through is one `chat` lets through too, and
   * the reverse. They refuse a short `sk-` key differently: validation has no
   * request model, so its own length message is sent, where `chat` answers 422.
   */
  lemma ValidateAgreesWithChat(apiKey: string)
    ensures ValidateKeyError(Some(apiKey)).None? <==> ChatKeyError(apiKey).None?
    ensures apiKey != "" && StartsWith(apiKey, KeyPrefix) && |apiKey| < MinKeyLength ==>
              && ValidateKeyError(Some(apiKey)) == Some(HttpError(400, TooShort))
              && ChatKeyError(apiKey) == Some(HttpError(422, FieldTooShort))
  {
  }

  // ---------------------------------------------------------------------------
  // Upstream errors.

  predicate IsInvalidKeyMessage(message: string)
  {
    Contains(message, "Invalid API key") || Contains(message, "Incorrect API key")
  }

  /**
   * The `except Exception` arm: the first of the four cases that applies
   * decides. `fallbackPrefix` is `"An error occurred: "` in the chat
   * handlers and `"API key validation failed: "` in `validate_api_key`.
   */
  function ClassifyUpstreamError(message: string, fallbackPrefix: string): (e: HttpError)
    ensures e.status == 401 <==> IsInvalidKeyMessage(message)
    ensures e.status == 429 <==> !IsInvalidKeyMessage(message) && Contains(message, "Rate limit")
    ensures e.status == 402 <==> !IsInvalidKeyMessage(message) && !Contains(message, "Rate limit")
                                 && Contains(message, "Insufficient quota")
    ensures e.status == 500 <==> !IsInvalidKeyMessage(message) && !Contains(message, "Rate limit")
                                 && !Contains(message, "Insufficient quota")
    ensures e.status == 500 ==> e.detail == fallbackPrefix + message
    ensures e.status != 500 ==> e.detail in {InvalidKey, RateLimited, NoQuota}
  {
    if IsInvalidKeyMessage(message) then HttpError(401, InvalidKey)
    else if Contains(message, "Rate limit") then HttpError(429, RateLimited)
    else if Contains(message, "Insufficient quota") then HttpError(402, NoQuota)
    else HttpError(500, fallbackPrefix + message)
  }

  /** The message of a 500 is recoverable from its detail: the classifier loses nothing then. */
  lemma UnclassifiedKeepsMessage(message: string, fallbackPrefix: string)
    requires ClassifyUpstreamError(message, fallbackPrefix).status == 500
    ensures var d := ClassifyUpstreamError(message, fallbackPrefix).detail;
            StartsWith(d, fallbackPrefix) && d[|fallbackPrefix|..] == message
  {
    var d := ClassifyUpstreamError(message, fallbackPrefix).detail;
    assert d[..|fallbackPrefix|] == fallbackPrefix;
  }

  /** What a handler's `try` block can raise: an `HTTPException` of its own, or any other exception. */
  datatype Raised =
    | Http(error: HttpError)
    | Other(message: string)

  /**
   * The two `except` arms: an `HTTPException` is re-raised as it is, anything
   * else is classified by its message.
   */
  function Handle(raised: Raised, fallbackPrefix: string): HttpError
  {
    match raised
    case Http(error) => error
    case Other(message) => ClassifyUpstreamError(message, fallbackPrefix)
  }

  /**
   * An `HTTPException` raised inside the block is never reclassified, even
   * when its detail mentions an invalid key or a rate limit.
   */
  lemma HttpErrorsNotReclassified(detail: string, fallbackPrefix: string)
    requires IsInvalidKeyMessage(detail) || Contains(detail, "Rate limit")
    ensures Handle(Http(HttpError(500, detail)), fallbackPrefix).status == 500
    ensures Handle(Other(detail), fallbackPrefix).status != 500
  {
  }

  // ---------------------------------------------------------------------------
  // `validate_api_key` and `test_endpoint`.

  /** What an upstream completion call does: it raises, or returns the first choice's content. */
  datatype Completion =
    | CallFailed(message: string)
    | Completed(content: Option<string>)

  datatype ValidateReply =
    | KeyValid
    | ValidateError(error: HttpError)

  /**
   * `POST /api/validate-key`: the key checks, then one small completion;
   * its failure is classified with the validation prefix.
   */
  function ValidateApiKey(apiKey: Option<string>, upstream: Completion): (r: ValidateReply)
    ensures ValidateKeyError(apiKey).Some? ==> r == ValidateError(ValidateKeyError(apiKey).value)
    ensures ValidateKeyError(apiKey).None? && upstream.CallFailed? ==>
              r == ValidateError(ClassifyUpstreamError(upstream.message, ValidationErrorPrefix))
    ensures r.KeyValid? <==> ValidateKeyError(apiKey).None? && upstream.Completed?
  {
    match ValidateKeyError(apiKey)
    case Some(e) => ValidateError(Handle(Http(e), ValidationErrorPrefix))
    case None =>
      match upstream
      case CallFailed(m) => ValidateError(Handle(Other(m), ValidationErrorPrefix))
      case Completed(_) => KeyValid
  }

  /** A key the checks accept is valid exactly when the upstream call succeeds, and an empty key is never sent. */
  lemma ValidateOutcomes(apiKey: Option<string>, upstream: Completion)
    ensures !Truthy(apiKey) ==> ValidateApiKey(apiKey, upstream) == ValidateError(HttpError(400, KeyRequired))
    ensures ValidateApiKey(apiKey, upstream).KeyValid? ==>
              StartsWith(apiKey.value, KeyPrefix) && |apiKey.value| >= MinKeyLength
  {
  }

  const TestSuccessMessage: string := "API key is working"

  /** The body `test_endpoint` answers with, always with status 200. */
  datatype TestReply =
    | TestError(error: string)
    | TestSuccess(message: string, response: Option<string>)

  /**
   * `POST /api/test`: no format checks, only a truthy key; the error cases
   * are answered as `{"error": …}` values, not raised.
   */
  function TestEndpoint(apiKey: Option<string>, upstream: Completion): TestReply
  {
    if !Truthy(apiKey) then TestError(KeyRequired)
    else
      match upstream
      case CallFailed(m) => TestError(m)
      case Completed(content) => TestSuccess(TestSuccessMessage, content)
  }

  /**
   * The key alone decides whether upstream is asked: a falsy key gets the
   * same answer whatever the call would do. The test succeeds exactly when
   * the key is truthy and the call completes, and a failure message comes
   * back verbatim, where validation classifies the same message.
   */
  lemma TestEndpointOutcomes(apiKey: Option<string>, upstream: Completion, other: Completion)
    ensures !Truthy(apiKey) ==> TestEndpoint(apiKey, upstream) == TestEndpoint(apiKey, other)
    ensures TestEndpoint(apiKey, upstream).TestSuccess? <==> Truthy(apiKey) && upstream.Completed?
    ensures TestEndpoint(apiKey, upstream).TestSuccess? ==> TestEndpoint(apiKey, upstream).response == upstream.content
    ensures (Truthy(apiKey) && upstream.CallFailed? && IsInvalidKeyMessage(upstream.message)
             && ValidateKeyError(apiKey).None?) ==>
              && TestEndpoint(apiKey, upstream) == TestError(upstream.message)
              && ValidateApiKey(apiKey, upstream) == ValidateError(HttpError(401, InvalidKey))
  {
  }

  /** Unlike `validate_api_key`, the test endpoint passes any non-empty key on to the upstream call. */
  lemma TestSkipsFormatChecks(apiKey: string, content: Option<string>)
    requires apiKey != "" && !StartsWith(apiKey, KeyPrefix)
    ensures TestEndpoint(Some(apiKey), Completed(content)).TestSuccess?
    ensures ValidateApiKey(Some(apiKey), Completed(content)) == ValidateError(HttpError(400, InvalidFormat))
  {
  }

  // ---------------------------------------------------------------------------
  // `generate` and `chat`.

  /** The contents of the fragments that have one, empty strings included, in order. */
  function PresentContents(fragments: seq<Option<string>>): seq<string>
  {
    if fragments == [] then []
    else
      var last := fragments[|fragments| - 1];
      PresentContents(fragments[..|fragments| - 1]) + (if last.Some? then [last.value] else [])
  }

  /** When every fragment has content, every content is relayed, in order. */
  lemma {:induction false} PresentContentsAll(fragments: seq<Option<string>>)
    requires forall i :: 0 <= i < |fragments| ==> fragments[i].Some?
    ensures |PresentContents(fragments)| == |fragments|
    ensures forall i :: 0 <= i < |fragments| ==> PresentContents(fragments)[i] == fragments[i].value
  {
    if fragments != [] {
      PresentContentsAll(fragments[..|fragments| - 1]);
    }
  }

  /**
   * The two relays differ only in empty strings: the chat route drops them,
   * `generate` keeps them, and dropping them from what `generate` yields
   * gives what the route sends.
   */
  lemma {:induction false} RelaysAgreeUpToEmpty(fragments: seq<Option<string>>)
    ensures NonEmpty(PresentContents(fragments)) == ChatRoute.NonEmptyContents(fragments)
  {
    if fragments != [] {
      var front := fragments[..|fragments| - 1];
      var last := fragments[|fragments| - 1];
      RelaysAgreeUpToEmpty(front);
      var ps := PresentContents(fragments);
      if last.Some? {
        assert ps == PresentContents(front) + [last.value];
        NonEmptyStep(ps, |ps| - 1);
        assert ps[..|ps| - 1] == PresentContents(front);
        assert ps[..|ps|] == ps;
      } else {
        assert ps == PresentContents(front);
      }
    }
  }

  /** What the streaming completion does: it raises when created, or yields fragments (and may break). */
  datatype Stream =
    | StreamFailed
    | Streamed(fragments: seq<Option<string>>, broken: bool)

  /**
   * `generate`: yield the content of every fragment whose content is not
   * `None`. The stream is only created once the response has started, so
   * a failure there ends the body early instead of raising an HTTP error.
   */
  method Generate(stream: Stream) returns (yielded: seq<string>, complete: bool)
    ensures stream.StreamFailed? ==> yielded == [] && !complete
    ensures stream.Streamed? ==> yielded == PresentContents(stream.fragments) && complete == !stream.broken
  {
    if stream.StreamFailed? {
      return [], false;
    }
    var fragments := stream.fragments;
    yielded := [];
    var i := 0;
    while i < |fragments|
      invariant 0 <= i <= |fragments|
      invariant yielded == PresentContents(fragments[..i])
    {
      assert fragments[..i + 1][..i] == fragments[..i];
      if fragments[i].Some? {
        yielded := yielded + [fragments[i].value];
      }
      i := i + 1;
    }
    assert fragments[..i] == fragments;
    complete := !stream.broken;
  }

  /** What the structured completion in `chat` ends with: any failure, or the parsed `content`. */
  datatype StructuredCall =
    | StructuredFailed(message: string)
    | StructuredParsed(content: string)

  /** What `chat` answers. `NullBody` is the `null` FastAPI sends when a handler returns `None`. */
  datatype ChatReply =
    | ChatError(error: HttpError)
    | Markdown(chunks: seq<string>, complete: bool)
    | NullBody

  /** Python truthiness of `use_structured_output`, which may be `null`. */
  predicate UseStructured(flag: Option<bool>)
  {
    flag == Some(true)
  }

  /**
   * `POST /api/chat` as written: the request validation and the key checks,
   * then the structured branch when the flag is true and the streaming
   * branch otherwise. Every failure of the structured branch is caught by
   * its own `except` and the handler then falls off its end.
   * `clientError` is what creating the client raises, if anything.
   */
  method Chat(apiKey: string, useStructured: Option<bool>, clientError: Option<string>,
              structured: StructuredCall, stream: Stream)
    returns (reply: ChatReply)
    ensures ChatKeyError(apiKey).Some? ==> reply == ChatError(ChatKeyError(apiKey).value)
    ensures ChatKeyError(apiKey).None? && clientError.Some? ==>
              reply == ChatError(ClassifyUpstreamError(clientError.value, ChatErrorPrefix))
    ensures ChatKeyError(apiKey).None? && clientError.None? && UseStructured(useStructured) ==>
              reply == (if structured.StructuredParsed? then Markdown([structured.content], true) else NullBody)
    ensures ChatKeyError(apiKey).None? && clientError.None? && !UseStructured(useStructured) ==>
              && reply.Markdown?
              && reply.chunks == (if stream.Streamed? then PresentContents(stream.fragments) else [])
              && reply.complete == (stream.Streamed? && !stream.broken)
  {
    var e := ChatKeyError(apiKey);
    if e.Some? {
      return ChatError(Handle(Http(e.value), ChatErrorPrefix));
    }
    if clientError.Some? {
      return ChatError(Handle(Other(clientError.value), ChatErrorPrefix));
    }
    if UseStructured(useStructured) {
      match structured
      case StructuredParsed(content) =>
        reply := Markdown([content], true);
      case StructuredFailed(_) =>
        reply := NullBody;
    } else {
      var yielded, complete := Generate(stream);
      reply := Markdown(yielded, complete);
    }
  }

  /**
   * The streaming branch is reached only when the flag is false or null:
   * with the flag true, a failed structured call gives an empty `null`
   * reply, never the stream.
   */
  method StructuredFailureGivesNull(apiKey: string, message: string, stream: Stream) returns (reply: ChatReply)
    requires ChatKeyError(apiKey).None?
    ensures reply == NullBody
  {
    reply := Chat(apiKey, Some(true), None, StructuredFailed(message), stream);
  }

  /**
   * `POST /api/chat` as its comments describe it: when the structured call
   * fails, fall back to the streaming branch.
   */
  method ChatWithFallback(apiKey: string, useStructured: Option<bool>, clientError: Option<string>,
                          structured: StructuredCall, stream: Stream)
    returns (reply: ChatReply)
    ensures reply != NullBody
    ensures ChatKeyError(apiKey).Some? ==> reply == ChatError(ChatKeyError(apiKey).value)
    ensures ChatKeyError(apiKey).None? && clientError.Some? ==>
              reply == ChatError(ClassifyUpstreamError(clientError.value, ChatErrorPrefix))
    ensures (ChatKeyError(apiKey).None? && clientError.None? && UseStructured(useStructured)
             && structured.StructuredParsed?) ==> reply == Markdown([structured.content], true)
    ensures (ChatKeyError(apiKey).None? && clientError.None?
             && !(UseStructured(useStructured) && structured.StructuredParsed?)) ==>
              && reply.Markdown?
              && reply.chunks == (if stream.Streamed? then PresentContents(stream.fragments) else [])
              && reply.complete == (stream.Streamed? && !stream.broken)
  {
    var e := ChatKeyError(apiKey);
    if e.Some? {
      return ChatError(Handle(Http(e.value), ChatErrorPrefix));
    }
    if clientError.Some? {
      return ChatError(Handle(Other(clientError.value), ChatErrorPrefix));
    }
    if UseStructured(useStructured) && structured.StructuredParsed? {
      return Markdown([structured.content], true);
    }
    var yielded, complete := Generate(stream);
    reply := Markdown(yielded, complete);
  }

  // ---------------------------------------------------------------------------
  // `chat_structured`.

  datatype CodeBlock = CodeBlock(language: string, code: string)
  datatype ListItem = ListItem(content: string, level: int)

  /** The parsed structured response; the structured summary is not modelled. */
  datatype StructuredResponse = StructuredResponse(
    content: string,
    codeBlocks: seq<CodeBlock>,
    lists: seq<ListItem>,
    summary: Option<string>,
    answer: Option<string>,
    taskType: string)

  /** The three ways the structured completion can end before the reply is built. */
  datatype StructuredOutcome =
    | CompletionFailed(message: string)
    | BadJson(message: string)
    | BadShape(message: string)
    | Parsed(response: StructuredResponse)

  datatype StructuredReply =
    | StructuredError(error: HttpError)
    | StructuredBody(response: StructuredResponse)

  /**
   * `POST /api/chat/structured`: the same checks as `chat`; a failed call
   * is classified, while a reply that is not JSON or does not fit the schema
   * gives a 500 whose detail names the parse step, which is not classified.
   */
  function ChatStructured(apiKey: string, clientError: Option<string>, outcome: StructuredOutcome)
    : (r: StructuredReply)
    ensures ChatKeyError(apiKey).Some? ==> r == StructuredError(ChatKeyError(apiKey).value)
    ensures ChatKeyError(apiKey).None? && clientError.Some? ==>
              r == StructuredError(ClassifyUpstreamError(clientError.value, ChatErrorPrefix))
    ensures r.StructuredBody? <==> ChatKeyError(apiKey).None? && clientError.None? && outcome.Parsed?
    ensures r.StructuredBody? ==> r.response == outcome.response
    ensures ChatKeyError(apiKey).None? && clientError.None? && (outcome.BadJson? || outcome.BadShape?) ==>
              && r.StructuredError? && r.error.status == 500
              && r.error.detail == (if outcome.BadJson? then ParseErrorPrefix else ShapeErrorPrefix) + outcome.message
  {
    match ChatKeyError(apiKey)
    case Some(e) => StructuredError(Handle(Http(e), ChatErrorPrefix))
    case None =>
      if clientError.Some? then StructuredError(Handle(Other(clientError.value), ChatErrorPrefix))
      else
        match outcome
        case CompletionFailed(m) => StructuredError(Handle(Other(m), ChatErrorPrefix))
        case BadJson(m) => StructuredError(Handle(Http(HttpError(500, ParseErrorPrefix + m)), ChatErrorPrefix))
        case BadShape(m) => StructuredError(Handle(Http(HttpError(500, ShapeErrorPrefix + m)), ChatErrorPrefix))
        case Parsed(resp) => StructuredBody(resp)
  }

  /** A failed structured call is classified exactly as `chat` classifies a failed client. */
  lemma StructuredCallFailureClassified(apiKey: string, message: string)
    requires ChatKeyError(apiKey).None?
    ensures ChatStructured(apiKey, None, CompletionFailed(message))
            == StructuredError(ClassifyUpstreamError(message, ChatErrorPrefix))
  {
  }
}
