/**
 * The upload route (frontend/app/api/upload-pdf/route.ts): `buildRAGSystem`,
 * which cuts the extracted text into overlapping windows of 1000 characters
 * every 800 characters and keeps the trimmed non-blank ones, and the `POST`
 * handler's guards and success message.
 */
module UploadRoute {
  import opened Wrappers
  import opened Text
  import ChatRoute

  const ChunkSize: nat := 1000
  const Overlap: nat := 200
  /** `chunkSize - overlap`, the step of the loop. */
  const Stride: nat := 800

  function Min(a: int, b: int): int
  {
    if a < b then a else b
  }

  /** `text.slice(i, i + chunkSize)`: JavaScript clamps both ends to the length. */
  function Window(text: string, i: nat): (w: string)
    ensures |w| <= ChunkSize
  {
    text[Min(i, |text|)..Min(i + ChunkSize, |text|)]
  }

  /** The offset of the `j`-th window: 0, 800, 1600, … */
  function Start(j: nat): nat
  {
    j * 800
  }

  /** How many offsets the loop visits for a text of length `len`: ⌈len / 800⌉. */
  function WindowCount(len: nat): nat
  {
    (len + 799) / 800
  }

  /** The `j`-th window exists exactly when its offset is below the length. */
  lemma StartBelowLength(len: nat, j: nat)
    ensures Start(j) < len <==> j < WindowCount(len)
  {
  }

  /** The trims of the windows the loop visits, in offset order. */
  function TrimmedWindows(text: string): seq<string>
  {
    seq(WindowCount(|text|), j requires 0 <= j => Trim(Window(text, Start(j))))
  }

  /**
   * `buildRAGSystem(text)`, stated as a function of the text: the trims of the
   * windows that are not empty, in increasing offset order.
   */
  function RagChunks(text: string): seq<string>
  {
    NonEmpty(TrimmedWindows(text))
  }

  /**
   * `buildRAGSystem`: walk the text with stride 800, slice at most 1000
   * characters at each offset and push their trim when that is not empty.
   */
  method BuildRagSystem(text: string) returns (chunks: seq<string>)
    ensures chunks == RagChunks(text)
  {
    chunks := [];
    var i: nat := 0;
    ghost var j: nat := 0;
    while i < |text|
      invariant i == Start(j) && j <= WindowCount(|text|)
      invariant chunks == NonEmpty(TrimmedWindows(text)[..j])
      decreases |text| - i
    {
      StartBelowLength(|text|, j);
      var chunk := text[i..Min(i + ChunkSize, |text|)];
      assert chunk == Window(text, Start(j));
      NonEmptyStep(TrimmedWindows(text), j);
      var trimmed := Trim(chunk);
      assert trimmed == TrimmedWindows(text)[j];
      if trimmed != "" {
        chunks := chunks + [trimmed];
      }
      i := i + Stride;
      j := j + 1;
    }
    StartBelowLength(|text|, j);
    assert TrimmedWindows(text)[..j] == TrimmedWindows(text);
  }

  /** The trim of a slice of the text is itself a slice of the text. */
  lemma TrimInside(text: string, a: nat, b: nat)
    requires a <= b <= |text|
    ensures Contains(text, Trim(text[a..b]))
  {
    var w := text[a..b];
    var t := Trim(w);
    TrimSlice(w);
    var k := SkipSpace(w, 0);
    assert w[k..k + |t|] == text[a + k..a + k + |t|];
    assert OccursAt(text, t, a + k);
  }

  // ---------------------------------------------------------------------------
  // Windows: where they start, how many there are, what they cover.

  /** The offsets the loop visits, in increasing order, each below the length. */
  function WindowStarts(len: nat): (starts: seq<nat>)
    ensures |starts| == WindowCount(len)
    ensures forall j :: 0 <= j < |starts| ==> starts[j] == Start(j) && starts[j] < len
    ensures forall j, k :: 0 <= j < k < |starts| ==> starts[j] < starts[k]
  {
    seq(WindowCount(len), j requires 0 <= j => Start(j))
  }

  /** Each window overlaps the next one by 200 characters (fewer only at the end of the text). */
  lemma WindowsOverlap(text: string, j: nat)
    requires Start(j + 1) < |text|
    ensures var w, next := Window(text, Start(j)), Window(text, Start(j + 1));
            && |w| - Stride == Min(Overlap, |text| - Start(j + 1))
            && w[Stride..] == next[..|w| - Stride]
  {
  }

  /** Every index of the text lies in the window whose offset is the multiple of 800 below it. */
  lemma WindowsCover(text: string, k: nat)
    requires k < |text|
    ensures var j := k / Stride;
            && j < WindowCount(|text|)
            && Start(j) <= k < Start(j) + |Window(text, Start(j))|
            && Window(text, Start(j))[k - Start(j)] == text[k]
  {
    StartBelowLength(|text|, k / Stride);
  }

  // ---------------------------------------------------------------------------
  // What the chunks are.

  /** For the whole text: at most ⌈L / 800⌉ chunks, exactly that many when no window is blank, none for empty text. */
  lemma RagChunkCount(text: string)
    ensures |RagChunks(text)| <= WindowCount(|text|)
    ensures (forall j :: 0 <= j < WindowCount(|text|) ==> !IsBlank(Window(text, Start(j))))
            ==> |RagChunks(text)| == WindowCount(|text|)
    ensures text == "" ==> RagChunks(text) == []
  {
    var ts := TrimmedWindows(text);
    NonEmptyCount(ts);
    forall j | 0 <= j < |ts| && !IsBlank(Window(text, Start(j)))
      ensures ts[j] != ""
    {
      TrimBlank(Window(text, Start(j)));
    }
  }

  /**
   * Every chunk is the trim of one of the windows: non-empty, at most 1000
   * characters long, trimmed at both ends and a slice of the text.
   */
  lemma ChunksAreTrimmedWindows(text: string, c: string)
    requires c in RagChunks(text)
    ensures exists m :: 0 <= m < WindowCount(|text|) && c == Trim(Window(text, Start(m)))
    ensures c != "" && |c| <= ChunkSize && !IsWhitespace(c[0]) && !IsWhitespace(c[|c| - 1])
    ensures Contains(text, c)
  {
    var ts := TrimmedWindows(text);
    NonEmptyMembers(ts, c);
    var m :| 0 <= m < |ts| && ts[m] == c;
    TrimmedWindowShape(text, Start(m));
  }

  /** The trim of one window: at most 1000 characters, trimmed at both ends and a slice of the text. */
  lemma TrimmedWindowShape(text: string, i: nat)
    ensures var c := Trim(Window(text, i));
            && |c| <= ChunkSize
            && (c != "" ==> !IsWhitespace(c[0]) && !IsWhitespace(c[|c| - 1]))
            && Contains(text, c)
  {
    TrimEnds(Window(text, i));
    TrimInside(text, Min(i, |text|), Min(i + ChunkSize, |text|));
  }

  // ---------------------------------------------------------------------------
  // The handler.

  /** `extractTextFromPDF` as written: a fixed placeholder, whatever the file. */
  const StubText: string := "PDF text extraction not implemented yet. Please use a PDF library like pdf-parse."

  datatype UploadedFile = UploadedFile(name: string, bytes: seq<bv8>)

  datatype UploadResponse =
    | UploadError(status: nat, error: string)
    | UploadSuccess(message: string)

  const OnlyPdf: string := "Only PDF files are allowed"
  const NoText: string := "No text found in PDF"

  /** A file is accepted when it is present and its name ends with the case-sensitive `.pdf`. */
  predicate IsPdf(file: Option<UploadedFile>)
  {
    file.Some? && EndsWith(file.value.name, ".pdf")
  }

  /** The success message, with the two counts written in decimal. */
  function SuccessMessage(characters: nat, chunks: nat): string
  {
    "PDF uploaded successfully! Extracted " + NatToString(characters)
    + " characters and created " + NatToString(chunks) + " chunks."
  }

  /**
   * `POST /api/upload-pdf`: the header is checked before the file, blank
   * extracted text is refused, and success reports the text length and the
   * chunk count. Nothing is stored. `extract` stands for the extractor.
   */
  method UploadPost(authHeader: Option<string>, file: Option<UploadedFile>, extract: seq<bv8> -> string)
    returns (resp: UploadResponse)
    ensures ChatRoute.BearerKey(authHeader).None? ==> resp == UploadError(400, ChatRoute.ApiKeyRequired)
    ensures ChatRoute.BearerKey(authHeader).Some? && !IsPdf(file) ==> resp == UploadError(400, OnlyPdf)
    ensures ChatRoute.BearerKey(authHeader).Some? && IsPdf(file) && IsBlank(extract(file.value.bytes)) ==>
              resp == UploadError(400, NoText)
    ensures ChatRoute.BearerKey(authHeader).Some? && IsPdf(file) && !IsBlank(extract(file.value.bytes)) ==>
              var text := extract(file.value.bytes);
              resp == UploadSuccess(SuccessMessage(|text|, |RagChunks(text)|))
  {
    if authHeader.None? || !StartsWith(authHeader.value, ChatRoute.BearerPrefix) {
      return UploadError(400, ChatRoute.ApiKeyRequired);
    }
    if file.None? || !EndsWith(file.value.name, ".pdf") {
      return UploadError(400, OnlyPdf);
    }
    var extractedText := extract(file.value.bytes);
    TrimBlank(extractedText);
    if Trim(extractedText) == "" {
      return UploadError(400, NoText);
    }
    var chunks := BuildRagSystem(extractedText);
    resp := UploadSuccess(SuccessMessage(|extractedText|, |chunks|));
  }

  /** A non-blank text of at most 800 characters makes exactly one chunk: its trim. */
  lemma ShortTextOneChunk(text: string)
    requires |text| <= Stride && !IsBlank(text)
    ensures RagChunks(text) == [Trim(text)]
  {
    TrimBlank(text);
    assert WindowCount(|text|) == 1;
    assert Window(text, Start(0)) == text;
    var ts := TrimmedWindows(text);
    assert ts == [Trim(text)];
    assert ts[..0] == [] && NonEmpty(ts[..0]) == [];
    assert NonEmpty(ts) == NonEmpty(ts[..0]) + [Trim(text)];
  }

  /**
   * With the placeholder extractor every authorised `.pdf` upload succeeds
   * with the same message: 81 characters, one chunk.
   */
  lemma StubUploadMessage()
    ensures |StubText| == 81 && !IsBlank(StubText) && |RagChunks(StubText)| == 1
    ensures SuccessMessage(|StubText|, |RagChunks(StubText)|)
            == "PDF uploaded successfully! Extracted " + "81" + " characters and created " + "1" + " chunks."
  {
    assert StubText[80] == '.';
    ShortTextOneChunk(StubText);
    assert NatToString(81) == "81";
    assert NatToString(1) == "1";
  }
}
