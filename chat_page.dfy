/**
 * The chat page (frontend/app/page.tsx): the state the component keeps and
 * the two handlers that change it, `handleFileUpload` and `handleSubmit`.
 *
 * React state setters are modelled as assignments to the fields of a
 * `ChatPage` object. Each handler awaits the network; what comes back is a
 * parameter, and each handler is split at its first `await` so that the state
 * the user sees while the request is in flight is part of the contract.
 * Message ids (built from the clock) are parameters too.
 */
module ChatPage {
  import opened Wrappers
  import opened Text
  import UploadRoute

  datatype Role = User | Assistant

  /** A chat message; the timestamp is not modelled. */
  datatype Message = Message(id: string, content: string, role: Role)

  const PleaseSelectPdf: string := "Please select a PDF file"
  const SetKeyFirst: string := "Please set your API key first"
  const Processing: string := "Uploading and processing PDF..."
  const UploadFailedPrefix: string := "Upload failed: "
  const UploadFailedDefault: string := "Upload failed"
  const Apology: string :=
    "Sorry, there was an error processing your request. Please check your API key and try again."

  // ---------------------------------------------------------------------------
  // The message log.

  /** The ids of the messages, in order. */
  function Ids(ms: seq<Message>): seq<string>
  {
    seq(|ms|, i requires 0 <= i < |ms| => ms[i].id)
  }

  /** `prev.map(msg => msg.id === id ? { ...msg, content } : msg)`. */
  function ReplaceById(ms: seq<Message>, id: string, content: string): seq<Message>
  {
    seq(|ms|, i requires 0 <= i < |ms| => if ms[i].id == id then ms[i].(content := content) else ms[i])
  }

  /** Replacing keeps the ids and roles; only the content of the messages with that id changes. */
  lemma ReplaceKeepsShape(ms: seq<Message>, id: string, content: string)
    ensures Ids(ReplaceById(ms, id, content)) == Ids(ms)
    ensures forall i :: 0 <= i < |ms| ==> ReplaceById(ms, id, content)[i].role == ms[i].role
    ensures forall i :: 0 <= i < |ms| && ms[i].id != id ==> ReplaceById(ms, id, content)[i] == ms[i]
    ensures forall i :: 0 <= i < |ms| && ms[i].id == id ==> ReplaceById(ms, id, content)[i].content == content
  {
  }

  /** Only the last replacement counts: each update overwrites the previous one. */
  lemma ReplaceTwice(ms: seq<Message>, id: string, a: string, b: string)
    ensures ReplaceById(ReplaceById(ms, id, a), id, b) == ReplaceById(ms, id, b)
  {
  }

  /** Replacing an id no message has changes nothing. */
  lemma ReplaceAbsent(ms: seq<Message>, id: string, content: string)
    requires id !in Ids(ms)
    ensures ReplaceById(ms, id, content) == ms
  {
    assert forall i :: 0 <= i < |ms| ==> Ids(ms)[i] == ms[i].id;
  }

  /** When the id is fresh for the rest of the log, replacing it changes just the message that has it. */
  lemma ReplaceLast(ms: seq<Message>, m: Message, content: string)
    requires m.id !in Ids(ms)
    ensures ReplaceById(ms + [m], m.id, content) == ms + [m.(content := content)]
  {
    ReplaceAbsent(ms, m.id, content);
    var r := ReplaceById(ms + [m], m.id, content);
    assert r[..|ms|] == ReplaceById(ms, m.id, content);
  }

  /** What the server answered to the chat request. */
  datatype ChatReply =
    /** `fetch` rejected, the status is not ok, or there is no body reader. */
    | NotOk
    /** The body read as these decoded chunks; `readError` when a read then rejected. */
    | Body(chunks: seq<string>, readError: bool)

  /**
   * The log `handleSubmit` leaves, from the log before it and its user
   * message: the assistant message is appended empty and then given the text
   * read so far after every chunk; any error appends the apology.
   */
  function SubmitLog(before: seq<Message>, user: Message, aiId: string, errorId: string, reply: ChatReply)
    : seq<Message>
  {
    var apology := Message(errorId, Apology, Assistant);
    match reply
    case NotOk => before + [user, apology]
    case Body(chunks, readError) =>
      var started := before + [user, Message(aiId, "", Assistant)];
      var streamed := if chunks == [] then started else ReplaceById(started, aiId, Concat(chunks));
      if readError then streamed + [apology] else streamed
  }

  /**
   * With a fresh id for the assistant message, a submit appends exactly the
   * user message and the reply: the whole text read when the stream ended,
   * and the partial text followed by the apology when a read failed.
   */
  lemma SubmitAppends(before: seq<Message>, user: Message, aiId: string, errorId: string, reply: ChatReply)
    requires aiId !in Ids(before) && aiId != user.id
    ensures reply.NotOk? ==>
              SubmitLog(before, user, aiId, errorId, reply) == before + [user, Message(errorId, Apology, Assistant)]
    ensures reply.Body? && !reply.readError ==>
              SubmitLog(before, user, aiId, errorId, reply)
              == before + [user, Message(aiId, Concat(reply.chunks), Assistant)]
    ensures reply.Body? && reply.readError ==>
              SubmitLog(before, user, aiId, errorId, reply)
              == before + [user, Message(aiId, Concat(reply.chunks), Assistant), Message(errorId, Apology, Assistant)]
  {
    if reply.Body? {
      var ai := Message(aiId, "", Assistant);
      assert before + [user, ai] == (before + [user]) + [ai];
      assert Ids(before + [user]) == Ids(before) + [user.id];
      ReplaceLast(before + [user], ai, Concat(reply.chunks));
      assert (before + [user]) + [ai.(content := Concat(reply.chunks))]
             == before + [user, Message(aiId, Concat(reply.chunks), Assistant)];
      if reply.chunks == [] {
        assert Concat(reply.chunks) == "";
      }
    }
  }

  /** A submit never drops or reorders the earlier messages when the assistant id is fresh. */
  lemma SubmitKeepsHistory(before: seq<Message>, user: Message, aiId: string, errorId: string, reply: ChatReply)
    requires aiId !in Ids(before) && aiId != user.id
    ensures var log := SubmitLog(before, user, aiId, errorId, reply);
            |before| + 2 <= |log| <= |before| + 3 && log[..|before|] == before && log[|before|] == user
  {
    SubmitAppends(before, user, aiId, errorId, reply);
  }

  /** The text of an upload failure: the server's `detail` when it is a non-empty string, else the default. */
  function UploadFailure(detail: Option<string>): string
  {
    if detail.Some? && detail.value != "" then detail.value else UploadFailedDefault
  }

  /** What the upload request ended with. */
  datatype UploadReply =
    /** A 2xx status and a body whose `message` is this. */
    | UploadOk(message: string)
    /** Any other status, with the body's `detail` if it has one. */
    | UploadNotOk(detail: Option<string>)
    /** `fetch` or `response.json()` rejected with this error message. */
    | UploadThrew(message: string)

  /** The upload status `handleFileUpload` ends with. */
  function UploadStatusAfter(reply: UploadReply): (status: string)
  {
    match reply
    case UploadOk(message) => message
    case UploadNotOk(detail) => UploadFailedPrefix + UploadFailure(detail)
    case UploadThrew(message) => UploadFailedPrefix + message
  }

  /** Every failed upload is reported behind `"Upload failed: "`, with a non-empty reason when the server sent none. */
  lemma UploadFailuresReported(reply: UploadReply)
    requires !reply.UploadOk?
    ensures StartsWith(UploadStatusAfter(reply), UploadFailedPrefix)
    ensures reply.UploadNotOk? ==> |UploadStatusAfter(reply)| > |UploadFailedPrefix|
    ensures reply == UploadNotOk(None) ==> UploadStatusAfter(reply) == UploadFailedPrefix + UploadFailedDefault
  {
    var s := UploadStatusAfter(reply);
    assert s[..|UploadFailedPrefix|] == UploadFailedPrefix;
  }

  /** The status a rejected upload shows, if any: the file type is checked before the key. */
  function UploadRejection(fileName: string, apiKey: string): (r: Option<string>)
    ensures r.None? <==> EndsWith(fileName, ".pdf") && !IsBlank(apiKey)
    ensures !EndsWith(fileName, ".pdf") ==> r == Some(PleaseSelectPdf)
  {
    TrimBlank(apiKey);
    if !EndsWith(fileName, ".pdf") then Some(PleaseSelectPdf)
    else if Trim(apiKey) == "" then Some(SetKeyFirst)
    else None
  }

  /** The page lets through exactly the file names the upload route accepts. */
  lemma PageAndRouteAgreeOnPdf(fileName: string, bytes: seq<bv8>, apiKey: string)
    requires !IsBlank(apiKey)
    ensures UploadRejection(fileName, apiKey).None?
            <==> UploadRoute.IsPdf(Some(UploadRoute.UploadedFile(fileName, bytes)))
  {
  }

  // ---------------------------------------------------------------------------
  // The component state.

  class ChatPage {
    var messages: seq<Message>
    var inputMessage: string
    var apiKey: string
    var isLoading: bool
    var isUploading: bool
    var uploadStatus: string
    /** The name of the uploaded file, if any. */
    var uploadedFile: Option<string>

    /** The initial state of the component. */
    constructor()
      ensures messages == [] && inputMessage == "" && apiKey == ""
      ensures !isLoading && !isUploading && uploadStatus == "" && uploadedFile.None?
    {
      messages := [];
      inputMessage := "";
      apiKey := "";
      isLoading := false;
      isUploading := false;
      uploadStatus := "";
      uploadedFile := None;
    }

    /**
     * `handleFileUpload` up to its request: a file not named `*.pdf` and
     * then a blank key are refused with a status; otherwise the upload is
     * marked in progress.
     */
    method StartUpload(fileName: string) returns (started: bool)
      modifies this
      ensures started <==> UploadRejection(fileName, old(apiKey)).None?
      ensures !started ==> uploadStatus == UploadRejection(fileName, old(apiKey)).value
                           && isUploading == old(isUploading)
      ensures started ==> uploadStatus == Processing && isUploading
      ensures messages == old(messages) && inputMessage == old(inputMessage) && apiKey == old(apiKey)
      ensures isLoading == old(isLoading) && uploadedFile == old(uploadedFile)
    {
      if !EndsWith(fileName, ".pdf") {
        uploadStatus := PleaseSelectPdf;
        return false;
      }
      if Trim(apiKey) == "" {
        uploadStatus := SetKeyFirst;
        return false;
      }
      isUploading := true;
      uploadStatus := Processing;
      started := true;
    }

    /**
     * The rest of `handleFileUpload`: on success the file is kept and the
     * server's message shown, on failure the reason; the upload ends either way.
     */
    method FinishUpload(fileName: string, reply: UploadReply)
      modifies this
      ensures uploadStatus == UploadStatusAfter(reply) && !isUploading
      ensures uploadedFile == (if reply.UploadOk? then Some(fileName) else old(uploadedFile))
      ensures messages == old(messages) && inputMessage == old(inputMessage) && apiKey == old(apiKey)
      ensures isLoading == old(isLoading)
    {
      match reply {
        case UploadOk(message) =>
          uploadedFile := Some(fileName);
          uploadStatus := message;
        case UploadNotOk(detail) =>
          uploadStatus := UploadFailedPrefix + UploadFailure(detail);
        case UploadThrew(message) =>
          uploadStatus := UploadFailedPrefix + message;
      }
      isUploading := false;
    }

    /**
     * `handleSubmit` up to its request: nothing happens when the input or
     * the key is blank; otherwise the user message is appended, the input
     * cleared and the page marked loading. `sent` is the text sent.
     */
    method StartSubmit(userId: string) returns (sent: Option<string>)
      modifies this
      ensures sent.None? <==> IsBlank(old(inputMessage)) || IsBlank(old(apiKey))
      ensures sent.None? ==> messages == old(messages) && inputMessage == old(inputMessage)
                             && isLoading == old(isLoading)
      ensures sent.Some? ==> && sent.value == old(inputMessage)
                             && messages == old(messages) + [Message(userId, old(inputMessage), User)]
                             && inputMessage == "" && isLoading
      ensures apiKey == old(apiKey) && isUploading == old(isUploading)
      ensures uploadStatus == old(uploadStatus) && uploadedFile == old(uploadedFile)
    {
      TrimBlank(inputMessage);
      TrimBlank(apiKey);
      if Trim(inputMessage) == "" || Trim(apiKey) == "" {
        return None;
      }
      sent := Some(inputMessage);
      messages := messages + [Message(userId, inputMessage, User)];
      inputMessage := "";
      isLoading := true;
    }

    /**
     * The rest of `handleSubmit`: append an empty assistant message, give it
     * the text read so far after every chunk, append the apology on any
     * error, and stop loading.
     */
    method FinishSubmit(aiId: string, errorId: string, reply: ChatReply)
      modifies this
      ensures reply.NotOk? ==> messages == old(messages) + [Message(errorId, Apology, Assistant)]
      ensures reply.Body? ==>
                var started := old(messages) + [Message(aiId, "", Assistant)];
                var streamed := if reply.chunks == [] then started
                                else ReplaceById(started, aiId, Concat(reply.chunks));
                messages == streamed + (if reply.readError then [Message(errorId, Apology, Assistant)] else [])
      ensures !isLoading
      ensures inputMessage == old(inputMessage) && apiKey == old(apiKey) && isUploading == old(isUploading)
      ensures uploadStatus == old(uploadStatus) && uploadedFile == old(uploadedFile)
    {
      var apology := Message(errorId, Apology, Assistant);
      match reply {
        case NotOk =>
          messages := messages + [apology];
        case Body(chunks, readError) =>
          messages := messages + [Message(aiId, "", Assistant)];
          ghost var started := messages;
          var aiResponse := "";
          var i := 0;
          while i < |chunks|
            invariant 0 <= i <= |chunks|
            invariant aiResponse == Concat(chunks[..i])
            invariant messages == if i == 0 then started else ReplaceById(started, aiId, aiResponse)
            invariant inputMessage == old(inputMessage) && apiKey == old(apiKey)
            invariant isUploading == old(isUploading) && uploadStatus == old(uploadStatus)
            invariant uploadedFile == old(uploadedFile)
          {
            assert chunks[..i + 1] == chunks[..i] + [chunks[i]];
            ConcatSnoc(chunks[..i], chunks[i]);
            if i > 0 {
              ReplaceTwice(started, aiId, aiResponse, aiResponse + chunks[i]);
            }
            aiResponse := aiResponse + chunks[i];
            messages := ReplaceById(messages, aiId, aiResponse);
            i := i + 1;
          }
          assert chunks[..i] == chunks;
          if readError {
            messages := messages + [apology];
          }
      }
      isLoading := false;
    }

    /** `handleSubmit` as a whole: the log it leaves is `SubmitLog`, and loading is over. */
    method HandleSubmit(userId: string, aiId: string, errorId: string, reply: ChatReply)
      modifies this
      ensures IsBlank(old(inputMessage)) || IsBlank(old(apiKey)) ==>
                messages == old(messages) && inputMessage == old(inputMessage) && isLoading == old(isLoading)
      ensures !IsBlank(old(inputMessage)) && !IsBlank(old(apiKey)) ==>
                && messages == SubmitLog(old(messages), Message(userId, old(inputMessage), User), aiId, errorId, reply)
                && inputMessage == "" && !isLoading
      ensures apiKey == old(apiKey) && isUploading == old(isUploading)
      ensures uploadStatus == old(uploadStatus) && uploadedFile == old(uploadedFile)
    {
      var sent := StartSubmit(userId);
      if sent.Some? {
        FinishSubmit(aiId, errorId, reply);
      }
    }
  }
}
