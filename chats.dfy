/**
 * The chatbot's streaming answer: chunks of text are cut into lines, and each
 * `data: ` line carries one event for the chat's callbacks. This follows a
 * simplified subset of the `text/event-stream` format of the WHATWG HTML Living
 * Standard, section 9.2 (no `event:`/`id:` fields, no multi-line data, and a
 * carriage return is not a line end).
 */
module Chats {
  import opened Wrappers
  import opened Strings
  import opened Seqs

  const EnableStreaming: bool := true
  const DataPrefix: string := "data: "
  const DoneMarker: string := "[DONE]"
  const UnknownStreamingError: string := "Unknown streaming error"
  const NoBodyMessage: string := "No response body available for streaming"

  /**
   * What `JSON.parse` makes of a payload, narrowed to what the dispatch reads.
   * String-valued fields only; a field of another type counts as absent.
   */
  datatype Json =
    | NotJson
    | JsonNull
    | JsonText(s: string)
    | JsonObject(kind: Option<string>, text: Option<string>, content: Option<string>,
                 citations: Option<seq<string>>, error: Option<string>)
    | OtherJson

  /** A call of one of the chat's callbacks. */
  datatype Callback = OnChunk(text: string) | OnCitations(citations: seq<string>) | OnComplete | OnError(message: string)

  /**
   * The `switch (event.type)`. A `null` event throws on `.type` and, like a
   * parse failure, sends the raw payload as a chunk.
   */
  function Dispatch(data: string, event: Json): (r: seq<Callback>)
    ensures |r| <= 1
    ensures event.NotJson? || event.JsonNull? ==> r == [OnChunk(data)]
    ensures event.JsonObject? && event.kind == Some("error") ==> r == [OnError(TextOr(event.error, UnknownStreamingError))]
    ensures event.JsonObject? && (event.kind == Some("complete") || event.kind == Some("done")) ==> r == [OnComplete]
    ensures r == [OnComplete] ==> event.JsonObject? && (event.kind == Some("complete") || event.kind == Some("done"))
  {
    match event
    case NotJson => [OnChunk(data)]
    case JsonNull => [OnChunk(data)]
    case JsonText(s) => [OnChunk(s)]
    case OtherJson => []
    case JsonObject(kind, text, content, citations, error) =>
      if kind == Some("chunk") || kind == Some("text") then
        (if TruthyText(text) || TruthyText(content) then [OnChunk(TextOr(text, TextOr(content, "")))] else [])
      else if kind == Some("citations") then
        (if citations.Some? then [OnCitations(citations.value)] else [])
      else if kind == Some("complete") || kind == Some("done") then [OnComplete]
      else if kind == Some("error") then [OnError(TextOr(error, UnknownStreamingError))]
      else if TruthyText(content) then [OnChunk(content.value)]
      else []
  }

  /** `processStreamLine`: the payload of a `data: ` line, trimmed; an empty one or `[DONE]` completes. */
  function ProcessLine(line: string, parse: string -> Json): (r: seq<Callback>)
    ensures |r| <= 1
    ensures IsBlank(line) || !StartsWith(line, DataPrefix) ==> r == []
    ensures StartsWith(line, DataPrefix) && (Trim(line[6..]) == "" || Trim(line[6..]) == DoneMarker) ==> r == [OnComplete]
    ensures StartsWith(line, DataPrefix) && Trim(line[6..]) != "" && Trim(line[6..]) != DoneMarker ==>
      r == Dispatch(Trim(line[6..]), parse(Trim(line[6..])))
  {
    TrimEmptyIffBlank(line);
    if Trim(line) == "" then []
    else if StartsWith(line, DataPrefix) then
      var data := Trim(line[6..]);
      if data == "" || data == DoneMarker then [OnComplete]
      else Dispatch(data, parse(data))
    else []
  }

  function LineCalls(parse: string -> Json): string -> seq<Callback> {
    line => ProcessLine(line, parse)
  }

  /** The callbacks of a run of lines, in order. */
  function CallsOf(lines: seq<string>, parse: string -> Json): seq<Callback> {
    FlatMap(lines, LineCalls(parse))
  }

  /** The last line's callbacks come last. */
  lemma CallsOfSnoc(lines: seq<string>, parse: string -> Json)
    requires lines != []
    ensures CallsOf(lines, parse) == CallsOf(lines[..|lines| - 1], parse) + ProcessLine(Last(lines), parse)
  {
    assert FlatMap(lines, LineCalls(parse)) ==
      FlatMap(lines[..|lines| - 1], LineCalls(parse)) + LineCalls(parse)(lines[|lines| - 1]);
  }

  lemma CallsOfOne(line: string, parse: string -> Json)
    ensures CallsOf([line], parse) == ProcessLine(line, parse)
  {
    CallsOfSnoc([line], parse);
    assert [line][..0] == [];
  }

  lemma CallsOfAppend(a: seq<string>, b: seq<string>, parse: string -> Json)
    ensures CallsOf(a + b, parse) == CallsOf(a, parse) + CallsOf(b, parse)
  {
    FlatMapAppend(a, b, LineCalls(parse));
  }

  /** What a whole answer text produces: its lines, then a final completion. */
  function StreamCallbacks(text: string, parse: string -> Json): seq<Callback> {
    CallsOf(Split(text, '\n'), parse) + [OnComplete]
  }

  /** The text received so far. */
  function Concat(chunks: seq<string>): string
    decreases |chunks|
  {
    if chunks == [] then "" else Concat(chunks[..|chunks| - 1]) + Last(chunks)
  }

  /** The reader loop's state between chunks: the unfinished line and the callbacks so far. */
  datatype Framing = Framing(buffer: string, calls: seq<Callback>)

  /** One chunk: split the buffer, process every piece but the last, keep the last. */
  function FeedChunk(st: Framing, chunk: string, parse: string -> Json): Framing {
    var lines := Split(st.buffer + chunk, '\n');
    Framing(Last(lines), st.calls + CallsOf(lines[..|lines| - 1], parse))
  }

  function FeedAll(chunks: seq<string>, parse: string -> Json): Framing
    decreases |chunks|
  {
    if chunks == [] then Framing("", []) else FeedChunk(FeedAll(chunks[..|chunks| - 1], parse), Last(chunks), parse)
  }

  /** End of stream: a non-blank leftover is processed, then completion fires. */
  function FinishStream(st: Framing, parse: string -> Json): seq<Callback> {
    st.calls + (if Trim(st.buffer) != "" then CallsOf(Split(st.buffer, '\n'), parse) else []) + [OnComplete]
  }

  /** After any chunks, the buffer is the last line of the text so far and every earlier line has been processed. */
  lemma {:induction false} FeedAllFrames(chunks: seq<string>, parse: string -> Json)
    ensures var lines := Split(Concat(chunks), '\n');
      FeedAll(chunks, parse) == Framing(Last(lines), CallsOf(lines[..|lines| - 1], parse))
    decreases |chunks|
  {
    if chunks != [] {
      var init := chunks[..|chunks| - 1];
      var chunk := Last(chunks);
      FeedAllFrames(init, parse);
      var acc := Concat(init);
      var lines0 := Split(acc, '\n');
      var st0 := FeedAll(init, parse);
      assert st0 == Framing(Last(lines0), CallsOf(lines0[..|lines0| - 1], parse));
      assert FeedAll(chunks, parse) == FeedChunk(st0, chunk, parse);
      assert Concat(chunks) == acc + chunk;
      var l2 := Split(st0.buffer + chunk, '\n');
      assert FeedChunk(st0, chunk, parse) == Framing(Last(l2), st0.calls + CallsOf(l2[..|l2| - 1], parse));
      var lines := Split(acc + chunk, '\n');
      SplitAppend(acc, chunk, '\n');
      assert lines == lines0[..|lines0| - 1] + l2;
      FrameStep(lines0, l2, lines);
      CallsOfAppend(lines0[..|lines0| - 1], l2[..|l2| - 1], parse);
    }
  }

  /** Continuing the unfinished last line keeps the finished ones in front. */
  lemma FrameStep(lines0: seq<string>, l2: seq<string>, lines: seq<string>)
    requires |lines0| >= 1 && |l2| >= 1 && lines == lines0[..|lines0| - 1] + l2
    ensures |lines| >= 1 && Last(lines) == Last(l2)
    ensures lines[..|lines| - 1] == lines0[..|lines0| - 1] + l2[..|l2| - 1]
  {
  }

  /** The callbacks depend on the text only, never on where the chunks were cut. */
  lemma ChunkingInvariance(chunks: seq<string>, parse: string -> Json)
    ensures FinishStream(FeedAll(chunks, parse), parse) == StreamCallbacks(Concat(chunks), parse)
  {
    FeedAllFrames(chunks, parse);
    var lines := Split(Concat(chunks), '\n');
    SplitPiecesFree(Concat(chunks), '\n');
    Leftover(Last(lines), parse);
    CallsOfSnoc(lines, parse);
  }

  /** The leftover holds no line end; processing it when non-blank is processing it always. */
  lemma Leftover(b: string, parse: string -> Json)
    requires '\n' !in b
    ensures (if Trim(b) != "" then CallsOf(Split(b, '\n'), parse) else []) == ProcessLine(b, parse)
  {
    assert Split(b, '\n') == [b];
    CallsOfOne(b, parse);
    TrimEmptyIffBlank(b);
  }

  lemma SameTextSameCallbacks(a: seq<string>, b: seq<string>, parse: string -> Json)
    requires Concat(a) == Concat(b)
    ensures FinishStream(FeedAll(a, parse), parse) == FinishStream(FeedAll(b, parse), parse)
  {
    ChunkingInvariance(a, parse);
    ChunkingInvariance(b, parse);
  }

  /** A `[DONE]` line is followed by the end-of-stream completion: the callback fires twice. */
  lemma DoneCompletesTwice(text: string, parse: string -> Json)
    requires text == DataPrefix + DoneMarker + "\n"
    ensures StreamCallbacks(text, parse) == [OnComplete, OnComplete]
  {
    var line := DataPrefix + DoneMarker;
    assert '\n' !in line;
    assert text == line + "\n";
    DoneLineCompletes(line, parse);
    CompletingLineThenEnd(line, parse);
  }

  /** A completing line with its line end: once for the line, once for the end of the stream. */
  lemma CompletingLineThenEnd(line: string, parse: string -> Json)
    requires '\n' !in line && ProcessLine(line, parse) == [OnComplete]
    ensures StreamCallbacks(line + "\n", parse) == [OnComplete, OnComplete]
  {
    SplitLineEnd(line);
    var lines := [line, ""];
    assert ProcessLine(Last(lines), parse) == [] by {
      assert IsBlank("");
    }
    assert lines[..1] == [line];
    CallsOfOne(line, parse);
    CallsOfSnoc(lines, parse);
  }

  /** A line and its line end split as the line and an empty leftover. */
  lemma SplitLineEnd(line: string)
    requires '\n' !in line
    ensures Split(line + "\n", '\n') == [line, ""]
  {
    assert line + "\n" == line + ['\n'] + "";
    SplitAtFirst(line, "", '\n');
    assert Split("", '\n') == [""];
  }

  lemma DoneLineCompletes(line: string, parse: string -> Json)
    requires line == DataPrefix + DoneMarker
    ensures ProcessLine(line, parse) == [OnComplete]
  {
    assert StartsWith(line, DataPrefix);
    assert line[6..] == DoneMarker;
    assert !IsWhitespace(line[0]);
    assert Trim(DoneMarker) == DoneMarker by {
      assert !IsWhitespace(DoneMarker[0]);
      assert TrimStart(DoneMarker) == DoneMarker;
      assert !IsWhitespace(DoneMarker[5]);
    }
  }

  /** The callbacks of the lines finished so far: every line of the text but the unfinished last one. */
  function FinishedLineCalls(text: string, parse: string -> Json): seq<Callback> {
    var lines := Split(text, '\n');
    CallsOf(lines[..|lines| - 1], parse)
  }

  /**
   * `handleStreamingResponse` over the chunks the reader returns, then either
   * the end of the stream or a read that throws with `readFailure`. A failed
   * read is reported to `onError` and rethrown; the unfinished line is dropped
   * and no completion fires.
   */
  method HandleStreamingResponse(chunks: seq<string>, readFailure: Option<string>, parse: string -> Json)
    returns (calls: seq<Callback>, thrown: Option<string>)
    ensures thrown == readFailure
    ensures readFailure.None? ==> calls == StreamCallbacks(Concat(chunks), parse)
    ensures readFailure.Some? ==> calls == FinishedLineCalls(Concat(chunks), parse) + [OnError(readFailure.value)]
  {
    var buffer := "";
    calls := [];
    var i := 0;
    while i < |chunks|
      invariant 0 <= i <= |chunks|
      invariant Framing(buffer, calls) == FeedAll(chunks[..i], parse)
    {
      assert chunks[..i + 1][..i] == chunks[..i] && Last(chunks[..i + 1]) == chunks[i];
      buffer := buffer + chunks[i];
      var lines := Split(buffer, '\n');
      buffer := Last(lines);
      var processed := ProcessLines(lines[..|lines| - 1], parse);
      calls := calls + processed;
      i := i + 1;
    }
    assert chunks[..|chunks|] == chunks;
    if readFailure.Some? {
      FeedAllFrames(chunks, parse);
      calls := calls + [OnError(readFailure.value)];
      thrown := readFailure;
      return;
    }
    if Trim(buffer) != "" {
      var processed := ProcessLines(Split(buffer, '\n'), parse);
      calls := calls + processed;
    }
    calls := calls + [OnComplete];
    thrown := None;
    ChunkingInvariance(chunks, parse);
  }

  /** `for (const line of lines) processStreamLine(line, callbacks)` */
  method ProcessLines(lines: seq<string>, parse: string -> Json) returns (calls: seq<Callback>)
    ensures calls == CallsOf(lines, parse)
  {
    calls := [];
    var k := 0;
    while k < |lines|
      invariant 0 <= k <= |lines|
      invariant calls == CallsOf(lines[..k], parse)
    {
      assert lines[..k + 1][..k] == lines[..k];
      CallsOfSnoc(lines[..k + 1], parse);
      calls := calls + ProcessLine(lines[k], parse);
      k := k + 1;
    }
    assert lines[..|lines|] == lines;
  }

  /** What the streaming request answered; a streamed body may end in a read that throws. */
  datatype StreamResponse =
    | NotOk(status: nat, errorText: string)
    | NoBody
    | Streamed(chunks: seq<string>, readFailure: Option<string>)

  datatype AskOutcome = NonStreaming | StreamSucceeded | StreamThrew(message: string)

  /**
   * `askChatbotStream`: without streaming or an `onChunk` callback, one plain
   * request; otherwise an error response is reported once and rethrown, and a
   * read that fails mid-stream is reported twice, once by the reader and once
   * by the outer `catch`, then rethrown.
   */
  function AskChatbotStream(enableStreaming: Option<bool>, hasOnChunk: bool, response: StreamResponse,
                            parse: string -> Json): (r: (AskOutcome, seq<Callback>))
    ensures r.0 == NonStreaming <==> !enableStreaming.GetOr(EnableStreaming) || !hasOnChunk
    ensures r.0 == NonStreaming ==> r.1 == []
    ensures r.0.StreamThrew? && !response.Streamed? ==> r.1 == [OnError(r.0.message)]
    ensures r.0.StreamThrew? && response.Streamed? ==>
      response.readFailure == Some(r.0.message) &&
      r.1 == FinishedLineCalls(Concat(response.chunks), parse) + [OnError(r.0.message), OnError(r.0.message)]
    ensures r.0 == StreamSucceeded ==>
      response.Streamed? && response.readFailure.None? && r.1 == StreamCallbacks(Concat(response.chunks), parse)
    ensures r.0 != NonStreaming && (response.NotOk? || response.NoBody? || response.readFailure.Some?) ==> r.0.StreamThrew?
  {
    if !enableStreaming.GetOr(EnableStreaming) || !hasOnChunk then (NonStreaming, [])
    else
      match response
      case NotOk(status, errorText) =>
        var message := "HTTP error! status: " + NatToString(status) + ", message: " + errorText;
        (StreamThrew(message), [OnError(message)])
      case NoBody => (StreamThrew(NoBodyMessage), [OnError(NoBodyMessage)])
      case Streamed(chunks, None) => (StreamSucceeded, StreamCallbacks(Concat(chunks), parse))
      case Streamed(chunks, Some(m)) =>
        (StreamThrew(m), FinishedLineCalls(Concat(chunks), parse) + [OnError(m), OnError(m)])
  }

  /**
   * A read that fails mid-stream: the callbacks made before it are those the
   * reader loop made over the chunks, a prefix of what the same text would have
   * produced had the stream ended there, without its end-of-stream completion;
   * then `onError` comes last, twice.
   */
  lemma ReadFailureReportedTwice(chunks: seq<string>, m: string, parse: string -> Json)
    ensures var r := AskChatbotStream(None, true, Streamed(chunks, Some(m)), parse);
      var n := |r.1|;
      r.0 == StreamThrew(m) && n >= 2 && r.1[n - 2..] == [OnError(m), OnError(m)] &&
      r.1[..n - 2] == FeedAll(chunks, parse).calls &&
      r.1[..n - 2] + ProcessLine(FeedAll(chunks, parse).buffer, parse) + [OnComplete] == StreamCallbacks(Concat(chunks), parse)
  {
    FeedAllFrames(chunks, parse);
    var lines := Split(Concat(chunks), '\n');
    CallsOfSnoc(lines, parse);
  }

  /** Streaming is on by default: only an explicit `false` or a missing `onChunk` falls back. */
  lemma StreamingByDefault(response: StreamResponse, parse: string -> Json)
    ensures AskChatbotStream(None, true, response, parse).0 != NonStreaming
    ensures AskChatbotStream(Some(false), true, response, parse).0 == NonStreaming
    ensures AskChatbotStream(None, false, response, parse).0 == NonStreaming
  {
  }
}
