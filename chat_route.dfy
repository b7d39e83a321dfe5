/**
 * The `POST` handler of the chat route (frontend/app/api/chat/route.ts):
 * the bearer-header check, the system prompt with its optional document
 * context, and the relay of the upstream completion stream as events.
 *
 * The upstream client is not modelled: what it does is a parameter
 * (`Upstream`), and the reply records the request the handler would send.
 * The module-level chunk store is passed in as `pdfChunks`.
 */
module ChatRoute {
  import opened Wrappers
  import opened Text
  import opened KeywordRanker
  import opened EventStream

  const BearerPrefix: string := "Bearer "
  const ApiKeyRequired: string := "API key is required"
  const ChatFailed: string := "Chat failed"
  const DefaultSystemMessage: string := "You are a helpful AI assistant."
  const DefaultModel: string := "gpt-4"

  /** Everything the template literal puts between the base prompt and the context. */
  const GroundingInstruction: string :=
    "\n\nIMPORTANT: You must ONLY answer questions using information from the provided context below. "
    + "If the answer is not in the context, say \"I don't have enough information in the provided document "
    + "to answer that question.\"\n\nContext:\n"

  /** Number of chunks put into the context. */
  const ContextChunks: nat := 3

  /**
   * The API key of an `Authorization` header: present only when the header
   * is present and starts with the case-sensitive `"Bearer "`, and then the
   * header without those seven characters.
   */
  function BearerKey(authHeader: Option<string>): (key: Option<string>)
    ensures key.Some? <==> authHeader.Some? && StartsWith(authHeader.value, BearerPrefix)
    ensures key.Some? ==> BearerPrefix + key.value == authHeader.value
  {
    if authHeader.Some? && StartsWith(authHeader.value, BearerPrefix)
    then Some(authHeader.value[|BearerPrefix|..])
    else None
  }

  /** A key sent as `Bearer <key>` is the key the handler extracts. */
  lemma BearerKeyOfBearer(key: string)
    ensures BearerKey(Some(BearerPrefix + key)) == Some(key)
  {
    assert (BearerPrefix + key)[..|BearerPrefix|] == BearerPrefix;
    assert (BearerPrefix + key)[|BearerPrefix|..] == key;
  }

  /** JavaScript `s || fallback` on an optional string: the fallback for a missing or empty string. */
  function OrDefault(s: Option<string>, fallback: string): string
  {
    if s.Some? && s.value != "" then s.value else fallback
  }

  /**
   * The system prompt the route builds: the developer message (or the default
   * one) on its own when no document is loaded, and otherwise followed by the
   * grounding instruction and the three best chunks joined by blank lines.
   */
  function SystemPrompt(developerMessage: Option<string>, userMessage: string, pdfChunks: seq<string>): string
  {
    var base := OrDefault(developerMessage, DefaultSystemMessage);
    if pdfChunks == [] then base
    else base + GroundingInstruction + Join(TopK(userMessage, pdfChunks, ContextChunks), "\n\n")
  }

  /** Without a document the prompt is the developer message verbatim (the default when it is empty). */
  lemma PromptWithoutDocument(developerMessage: Option<string>, userMessage: string)
    ensures developerMessage.Some? && developerMessage.value != "" ==>
              SystemPrompt(developerMessage, userMessage, []) == developerMessage.value
    ensures developerMessage.None? || developerMessage.value == "" ==>
              SystemPrompt(developerMessage, userMessage, []) == DefaultSystemMessage
  {
  }

  /**
   * With a document the prompt starts with the base prompt, then the
   * grounding instruction, and ends with a context of at most three chunks,
   * each one a chunk of the document.
   */
  lemma PromptWithDocument(developerMessage: Option<string>, userMessage: string, pdfChunks: seq<string>)
    requires pdfChunks != []
    ensures var base := OrDefault(developerMessage, DefaultSystemMessage);
            var context := TopK(userMessage, pdfChunks, ContextChunks);
            && StartsWith(SystemPrompt(developerMessage, userMessage, pdfChunks), base + GroundingInstruction)
            && EndsWith(SystemPrompt(developerMessage, userMessage, pdfChunks), Join(context, "\n\n"))
            && |context| == (if |pdfChunks| < 3 then |pdfChunks| else 3)
            && forall i :: 0 <= i < |context| ==> context[i] in pdfChunks
  {
    var base := OrDefault(developerMessage, DefaultSystemMessage);
    var joined := Join(TopK(userMessage, pdfChunks, ContextChunks), "\n\n");
    var p := SystemPrompt(developerMessage, userMessage, pdfChunks);
    assert p == (base + GroundingInstruction) + joined;
    assert p[..|base + GroundingInstruction|] == base + GroundingInstruction;
    assert p[|p| - |joined|..] == joined;
    TopKSizeAndOrigin(userMessage, pdfChunks, ContextChunks);
  }

  // ---------------------------------------------------------------------------
  // The relay.

  /** The contents the route forwards: those of the fragments whose `delta.content` is truthy (non-empty). */
  function NonEmptyContents(fragments: seq<Option<string>>): (cs: seq<string>)
    ensures |cs| <= |fragments|
    ensures forall i :: 0 <= i < |cs| ==> cs[i] != ""
  {
    if fragments == [] then []
    else
      var last := fragments[|fragments| - 1];
      NonEmptyContents(fragments[..|fragments| - 1])
        + (if last.Some? && last.value != "" then [last.value] else [])
  }

  /** `JSON.stringify({ content })` of each content, in order. */
  function ContentPayloads(contents: seq<string>): (ps: seq<string>)
    ensures |ps| == |contents|
    ensures forall i :: 0 <= i < |ps| ==> SingleLine(ps[i])
  {
    seq(|contents|, i requires 0 <= i < |contents| => ContentJson(contents[i]))
  }

  /**
   * The `for await` loop of the route: one `data: {"content":…}` event per
   * fragment with non-empty content, in arrival order, then the `[DONE]`
   * event and the close, unless the upstream stream broke, in which case the
   * stream is errored after the events already sent.
   */
  method EmitFrames(fragments: seq<Option<string>>, broken: bool) returns (frames: seq<string>, closed: bool)
    ensures closed == !broken
    ensures frames == DataFrames(ContentPayloads(NonEmptyContents(fragments)))
                      + (if broken then [] else [DoneFrame])
  {
    frames := [];
    var i := 0;
    while i < |fragments|
      invariant 0 <= i <= |fragments|
      invariant frames == DataFrames(ContentPayloads(NonEmptyContents(fragments[..i])))
    {
      assert fragments[..i + 1][..i] == fragments[..i];
      var content := fragments[i];
      if content.Some? && content.value != "" {
        frames := frames + [DataFrame(ContentJson(content.value))];
      }
      i := i + 1;
    }
    assert fragments[..i] == fragments;
    if broken {
      closed := false;
    } else {
      frames := frames + [DoneFrame];
      closed := true;
    }
  }

  /**
   * What a reader of a completed stream sees: one event per non-empty
   * fragment, whose `content` reads back as that fragment, then `[DONE]`.
   */
  lemma {:induction false} CompletedStreamReadsBack(fragments: seq<Option<string>>)
    ensures var contents := NonEmptyContents(fragments);
            var payloads := ContentPayloads(contents);
            && ReadEvents(Concat(DataFrames(payloads) + [DoneFrame])) == Some(payloads + ["[DONE]"])
            && forall i :: 0 <= i < |payloads| ==> ReadContent(payloads[i]) == Some(contents[i])
  {
    var contents := NonEmptyContents(fragments);
    var payloads := ContentPayloads(contents);
    var all := payloads + ["[DONE]"];
    assert DataFrames(payloads) + [DoneFrame] == DataFrames(all);
    assert forall i :: 0 <= i < |all| ==> SingleLine(all[i]);
    ReadDataFrames(all);
    forall i | 0 <= i < |payloads| ensures ReadContent(payloads[i]) == Some(contents[i]) {
      ReadContentJson(contents[i]);
    }
  }

  // ---------------------------------------------------------------------------
  // The handler.

  /** What the upstream completion call does: it throws, or it streams fragments (and may break). */
  datatype Upstream =
    | CreateFailed
    | Streamed(fragments: seq<Option<string>>, broken: bool)

  /**
   * The parsed JSON body. `Unparsable` is a body that `request.json()` rejects
   * or that cannot be destructured (JSON `null`). A field that is missing or
   * not a string is `None`.
   */
  datatype RequestBody =
    | Unparsable
    | Fields(userMessage: Option<string>, developerMessage: Option<string>, model: Option<string>)

  /** The request the handler makes of the upstream service; a missing `user_message` is sent as `undefined`. */
  datatype UpstreamRequest = UpstreamRequest(apiKey: string, model: string, system: string, user: Option<string>)

  datatype ChatResponse =
    | JsonError(status: nat, error: string)
    | EventStreamReply(request: UpstreamRequest, frames: seq<string>, closed: bool)

  /**
   * The handler gets as far as the upstream call: the body parses, the header
   * carries a bearer key, and the ranker has a query whenever there are chunks
   * to rank (`toLowerCase` of a missing message throws).
   */
  predicate ReachesUpstream(authHeader: Option<string>, body: RequestBody, pdfChunks: seq<string>)
  {
    body.Fields? && BearerKey(authHeader).Some? && (pdfChunks == [] || body.userMessage.Some?)
  }

  /** The user message as a query; only read when it is present. */
  function QueryOf(body: RequestBody): string
  {
    if body.Fields? && body.userMessage.Some? then body.userMessage.value else ""
  }

  /**
   * `POST /api/chat`: 500 `Chat failed` when the body does not parse (checked
   * first), 400 without a bearer header, 500 when there are chunks but no
   * message to rank them by or when the upstream call throws, and otherwise
   * the relayed stream for the prompt built above.
   */
  method ChatPost(authHeader: Option<string>, body: RequestBody, pdfChunks: seq<string>, upstream: Upstream)
    returns (resp: ChatResponse)
    ensures body.Unparsable? ==> resp == JsonError(500, ChatFailed)
    ensures body.Fields? && BearerKey(authHeader).None? ==> resp == JsonError(400, ApiKeyRequired)
    ensures body.Fields? && BearerKey(authHeader).Some? && pdfChunks != [] && body.userMessage.None? ==>
              resp == JsonError(500, ChatFailed)
    ensures ReachesUpstream(authHeader, body, pdfChunks) && upstream.CreateFailed? ==>
              resp == JsonError(500, ChatFailed)
    ensures ReachesUpstream(authHeader, body, pdfChunks) && upstream.Streamed? ==>
              && resp.EventStreamReply?
              && resp.request == UpstreamRequest(BearerKey(authHeader).value, OrDefault(body.model, DefaultModel),
                                                 SystemPrompt(body.developerMessage, QueryOf(body), pdfChunks),
                                                 body.userMessage)
              && resp.frames == DataFrames(ContentPayloads(NonEmptyContents(upstream.fragments)))
                                + (if upstream.broken then [] else [DoneFrame])
              && resp.closed == !upstream.broken
  {
    if body.Unparsable? {
      return JsonError(500, ChatFailed);
    }
    if authHeader.None? || !StartsWith(authHeader.value, BearerPrefix) {
      return JsonError(400, ApiKeyRequired);
    }
    var apiKey := authHeader.value[|BearerPrefix|..];

    var systemMessage := OrDefault(body.developerMessage, DefaultSystemMessage);
    if |pdfChunks| > 0 {
      if body.userMessage.None? {
        return JsonError(500, ChatFailed);
      }
      var relevantChunks := FindRelevantChunksKeyword(body.userMessage.value, pdfChunks, ContextChunks);
      var context := Join(relevantChunks, "\n\n");
      systemMessage := systemMessage + GroundingInstruction + context;
    }

    match upstream
    case CreateFailed =>
      resp := JsonError(500, ChatFailed);
    case Streamed(fragments, broken) =>
      var request := UpstreamRequest(apiKey, OrDefault(body.model, DefaultModel), systemMessage, body.userMessage);
      var frames, closed := EmitFrames(fragments, broken);
      resp := EventStreamReply(request, frames, closed);
  }
}
