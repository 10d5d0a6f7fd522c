/**
 * The chat provider's session: `sendMessage` appends a user turn and a
 * loading assistant placeholder, posts the message with the previous turns,
 * reads the streamed reply chunk by chunk, copies the growing text into the
 * last turn, and on any failure replaces the last turn with an error turn.
 *
 * Malformed payloads are rethrown and end the stream; a `done` payload only
 * ends the current chunk; chunks are cut into lines one at a time.
 */
module Chat {
  import opened Options
  import opened Text
  import opened Frames

  /** One entry of `conversation`. A user turn has no `loading` flag, read as false. */
  datatype Turn = Turn(role: Role, content: string, loading: bool)

  /** One entry of the request's `conversation` array: role and content only. */
  datatype WireTurn = WireTurn(role: Role, content: string)

  /** What `sendMessage` posts: the `x-api-key` header and the JSON body. */
  datatype ChatRequest = ChatRequest(apiKey: string, message: string, conversation: seq<WireTurn>)

  const SomethingWentWrong: string := "Something went wrong"

  function UserTurn(message: string): Turn {
    Turn(User, message, false)
  }

  /** The assistant entry appended before the request is sent. */
  const Placeholder: Turn := Turn(Assistant, "", true)

  /** The entry that replaces the last one when the session fails. */
  function ErrorTurn(message: string): (t: Turn)
    ensures t.role == Assistant && !t.loading
    ensures StartsWith(t.content, "Error: ")
    ensures message != "" ==> t.content == "Error: " + message
    ensures message == "" ==> t.content == "Error: " + SomethingWentWrong
  {
    Turn(Assistant, "Error: " + (if message != "" then message else SomethingWentWrong), false)
  }

  /** `previousMessages.map((msg) => ({ role: msg.role, content: msg.content }))`. */
  function Serialize(previous: seq<Turn>): (wire: seq<WireTurn>)
    ensures |wire| == |previous|
    ensures forall i :: 0 <= i < |previous| ==>
              wire[i].role == previous[i].role && wire[i].content == previous[i].content
  {
    if previous == [] then [] else [WireTurn(previous[0].role, previous[0].content)] + Serialize(previous[1..])
  }

  /**
   * The state updater run after each non-empty `response`: when the last turn
   * is an assistant turn it is replaced by one showing `text` and no longer
   * loading; otherwise the conversation is kept. The conversation is never
   * empty here, since the placeholder was appended before streaming.
   */
  function ShowText(prev: seq<Turn>, text: string): (next: seq<Turn>)
    requires |prev| > 0
    ensures |next| == |prev| && next[..|prev| - 1] == prev[..|prev| - 1]
    ensures prev[|prev| - 1].role == Assistant ==> next[|prev| - 1] == Turn(Assistant, text, false)
    ensures prev[|prev| - 1].role != Assistant ==> next == prev
  {
    var last := prev[|prev| - 1];
    if last.role == Assistant then prev[..|prev| - 1] + [last.(content := text, loading := false)]
    else prev
  }

  /** The updater of the outer `catch`: `[...prev.slice(0, -1), errorTurn]`. */
  function ShowError(prev: seq<Turn>, message: string): (next: seq<Turn>)
    ensures |prev| > 0 ==> |next| == |prev| && next[..|prev| - 1] == prev[..|prev| - 1]
    ensures prev == [] ==> next == [ErrorTurn(message)]
    ensures |next| > 0 && next[|next| - 1] == ErrorTurn(message)
  {
    (if prev == [] then [] else prev[..|prev| - 1]) + [ErrorTurn(message)]
  }

  /** What one line of a chunk does to the session. */
  datatype LineEffect =
    | Skip                              // not a `data: ` line
    | Fail(message: string)             // malformed payload or a truthy `error`: thrown
    | Emit(fragment: string, done: bool) // `response` ("" when falsy) and `done`

  function ChatLine(line: string, parse: string -> Payload): (e: LineEffect)
    ensures !IsData(line) ==> e == Skip
  {
    if !IsData(line) then Skip
    else match parse(PayloadOf(line))
      case Malformed(m) => Fail(m)
      case Obj(err, response, _, done) => if err != "" then Fail(err) else Emit(response, done)
  }

  /** Accumulated text, and the message of the error that ended the stream if one did. */
  datatype Scan = Scan(acc: string, failure: Option<string>)

  /** The inner `for` loop over the lines of one chunk, starting from accumulator `acc`. */
  function ScanLines(lines: seq<string>, parse: string -> Payload, acc: string): Scan
  {
    if lines == [] then Scan(acc, None)
    else match ChatLine(lines[0], parse)
      case Skip => ScanLines(lines[1..], parse, acc)
      case Fail(m) => Scan(acc, Some(m))
      case Emit(r, done) => if done then Scan(acc + r, None) else ScanLines(lines[1..], parse, acc + r)
  }

  /** The outer read loop over the chunks: it stops only at a failure or at the end. */
  function ScanChunks(chunks: seq<string>, parse: string -> Payload, acc: string): Scan
  {
    if chunks == [] then Scan(acc, None)
    else
      var s := ScanLines(Lines(chunks[0]), parse, acc);
      if s.failure.Some? then s else ScanChunks(chunks[1..], parse, s.acc)
  }

  /** The whole exchange: transport failures, the status check, the stream, a failing read. */
  function ChatOutcome(reply: Reply, parse: string -> Payload): Scan
  {
    match reply
    case FetchFailed(m) => Scan("", Some(m))
    case Responded(status, body) =>
      if !Ok(status) then Scan("", Some(HttpError(status)))
      else
        var s := ScanChunks(body.chunks, parse, "");
        if s.failure.Some? then s else Scan(s.acc, body.readError)
  }

  /** The last turn while streaming: the placeholder until some text has arrived. */
  function Streaming(acc: string): Turn {
    if acc == "" then Placeholder else Turn(Assistant, acc, false)
  }

  /** The last turn once `sendMessage` has finished. */
  function FinalTurn(s: Scan): Turn {
    match s.failure
    case Some(m) => ErrorTurn(m)
    case None => Streaming(s.acc)
  }

  /** After the outer `catch`, the last turn is the final one. */
  lemma FinishedTurn(base: seq<Turn>, s: Scan)
    ensures (if s.failure.Some? then ShowError(base + [Streaming(s.acc)], s.failure.value)
             else base + [Streaming(s.acc)]) == base + [FinalTurn(s)]
  {
    if s.failure.Some? {
      var next := ShowError(base + [Streaming(s.acc)], s.failure.value);
      assert (base + [Streaming(s.acc)])[..|base|] == base;
      assert next == next[..|base|] + [next[|base|]];
    }
  }

  lemma TwoTurnsAppended(prev: seq<Turn>, first: Turn, second: Turn)
    ensures prev + [first] + [second] == prev + [first, second]
  {
  }

  class ChatProvider {
    var conversation: seq<Turn>
    var isLoading: bool
    var error: Option<string>
    /** `localStorage.getItem("lm_assistant_id")` as last seen by the reset effect. */
    var assistantId: Option<string>
    /** `currentAssistant?.apiKey`, "" when there is no assistant or no key. */
    var apiKey: string

    /** The provider as mounted: empty conversation, not loading, no error. */
    constructor (assistantId: Option<string>, apiKey: string)
      ensures this.conversation == [] && !this.isLoading && this.error == None
      ensures this.assistantId == assistantId && this.apiKey == apiKey
    {
      this.conversation := [];
      this.isLoading := false;
      this.error := None;
      this.assistantId := assistantId;
      this.apiKey := apiKey;
    }

    /** The effect on `[assistantId]`: a different assistant clears the chat and the error. */
    method AssistantChanged(id: Option<string>)
      modifies this`conversation, this`error, this`assistantId
      ensures assistantId == id
      ensures id != old(assistantId) ==> conversation == [] && error == None
      ensures id == old(assistantId) ==> conversation == old(conversation) && error == old(error)
    {
      if id != assistantId {
        conversation := [];
        error := None;
      }
      assistantId := id;
    }

    /** `newChat`: the conversation becomes empty. */
    method NewChat()
      modifies this`conversation
      ensures conversation == []
    {
      conversation := [];
    }

    /**
     * `sendMessage(message, previousMessages)`. `reply` is what `fetch` and the
     * body reader produce, `parse` stands for `JSON.parse`. Returns the request
     * that was posted, or None when the guard returned first.
     */
    method SendMessage(message: string, previous: seq<Turn>, reply: Reply, parse: string -> Payload)
      returns (request: Option<ChatRequest>)
      modifies this`conversation, this`isLoading
      ensures Trim(message) == "" || apiKey == "" ==>
                request == None && conversation == old(conversation) && isLoading == old(isLoading)
      ensures Trim(message) != "" && apiKey != "" ==>
                && request == Some(ChatRequest(apiKey, Trim(message), Serialize(previous)))
                && conversation == old(conversation) + [UserTurn(Trim(message)), FinalTurn(ChatOutcome(reply, parse))]
                && !isLoading
    {
      if Trim(message) == "" || apiKey == "" {
        return None;
      }
      var userMessage := Trim(message);
      isLoading := true;
      conversation := conversation + [UserTurn(userMessage)];
      conversation := conversation + [Placeholder];
      request := Some(ChatRequest(apiKey, userMessage, Serialize(previous)));
      ghost var base := old(conversation) + [UserTurn(userMessage)];

      var outcome: Scan;
      match reply {
        case FetchFailed(m) =>
          outcome := Scan("", Some(m));
        case Responded(status, body) =>
          if !Ok(status) {
            outcome := Scan("", Some(HttpError(status)));
          } else {
            outcome := ReadStream(body.chunks, parse, base);
            if outcome.failure.None? {
              outcome := outcome.(failure := body.readError);
            }
          }
      }
      assert outcome == ChatOutcome(reply, parse);
      assert conversation == base + [Streaming(outcome.acc)];
      if outcome.failure.Some? {
        conversation := ShowError(conversation, outcome.failure.value);
      }
      FinishedTurn(base, outcome);
      assert conversation == base + [FinalTurn(outcome)];
      TwoTurnsAppended(old(conversation), UserTurn(userMessage), FinalTurn(outcome));
      isLoading := false;
    }

    /**
     * The `while (true)` read loop, from the placeholder on: the accumulator
     * and the failure it ends with are those of ScanChunks, and the last turn
     * shows the accumulated text.
     */
    method ReadStream(chunks: seq<string>, parse: string -> Payload, ghost base: seq<Turn>)
      returns (outcome: Scan)
      requires conversation == base + [Placeholder]
      modifies this`conversation
      ensures outcome == ScanChunks(chunks, parse, "")
      ensures conversation == base + [Streaming(outcome.acc)]
    {
      var acc := "";
      var failure: Option<string> := None;
      var i := 0;
      while i < |chunks| && failure.None?
        invariant 0 <= i <= |chunks|
        invariant conversation == base + [Streaming(acc)]
        invariant failure.Some? ==> ScanChunks(chunks, parse, "") == Scan(acc, failure)
        invariant failure.None? ==> ScanChunks(chunks, parse, "") == ScanChunks(chunks[i..], parse, acc)
      {
        var lines := Lines(chunks[i]);
        var s := ReadChunk(lines, parse, acc, base);
        acc, failure := s.acc, s.failure;
        assert chunks[i..][1..] == chunks[i + 1..];
        i := i + 1;
      }
      outcome := Scan(acc, failure);
    }

    /**
     * The `for` loop over the lines of one chunk. A `done` payload leaves this
     * loop only; a malformed payload or a truthy `error` is thrown.
     */
    method ReadChunk(lines: seq<string>, parse: string -> Payload, acc0: string, ghost base: seq<Turn>)
      returns (outcome: Scan)
      requires conversation == base + [Streaming(acc0)]
      modifies this`conversation
      ensures outcome == ScanLines(lines, parse, acc0)
      ensures conversation == base + [Streaming(outcome.acc)]
    {
      var acc := acc0;
      var failure: Option<string> := None;
      var j := 0;
      while j < |lines|
        invariant 0 <= j <= |lines|
        invariant conversation == base + [Streaming(acc)]
        invariant ScanLines(lines, parse, acc0) == ScanLines(lines[j..], parse, acc)
      {
        var line := lines[j];
        ScanLinesStep(lines, j, parse, acc);
        if IsData(line) {
          var data := parse(PayloadOf(line));
          if data.Malformed? {
            failure := Some(data.message);
            break;
          }
          if data.error != "" {
            failure := Some(data.error);
            break;
          }
          assert ChatLine(line, parse) == Emit(data.response, data.done);
          if data.response != "" {
            acc := acc + data.response;
            conversation := ShowText(conversation, acc);
          } else {
            assert acc + data.response == acc;
          }
          if data.done {
            break;
          }
        }
        j := j + 1;
      }
      outcome := Scan(acc, failure);
    }
  }

  // ---------------------------------------------------------------------------
  // Properties of the stream reading
  // ---------------------------------------------------------------------------

  /** One turn of the loop over lines: the first remaining line decides how the scan goes on. */
  lemma ScanLinesStep(lines: seq<string>, j: nat, parse: string -> Payload, acc: string)
    requires j < |lines|
    ensures var e := ChatLine(lines[j], parse);
            ScanLines(lines[j..], parse, acc) ==
              if e.Skip? then ScanLines(lines[j + 1..], parse, acc)
              else if e.Fail? then Scan(acc, Some(e.message))
              else if e.done then Scan(acc + e.fragment, None)
              else ScanLines(lines[j + 1..], parse, acc + e.fragment)
  {
    assert lines[j..][0] == lines[j];
    assert lines[j..][1..] == lines[j + 1..];
  }

  /** Once a line fails, the lines after it in the chunk are not looked at. */
  lemma {:induction false} ScanLinesFailureIsFinal(pre: seq<string>, bad: string, post: seq<string>, parse: string -> Payload, acc: string)
    requires ChatLine(bad, parse).Fail?
    requires forall line :: line in pre ==> !ChatLine(line, parse).Fail? && !(ChatLine(line, parse).Emit? && ChatLine(line, parse).done)
    ensures ScanLines(pre + [bad] + post, parse, acc).failure == Some(ChatLine(bad, parse).message)
  {
    if pre == [] {
      assert pre + [bad] + post == [bad] + post;
    } else {
      assert (pre + [bad] + post)[1..] == pre[1..] + [bad] + post;
      var a := match ChatLine(pre[0], parse) case Emit(r, _) => acc + r case _ => acc;
      ScanLinesFailureIsFinal(pre[1..], bad, post, parse, a);
    }
  }

  /**
   * A `done` payload ends the current chunk: whatever follows it in the same
   * chunk has no effect.
   */
  lemma {:induction false} DoneEndsChunk(pre: seq<string>, last: string, post: seq<string>, parse: string -> Payload, acc: string)
    requires ChatLine(last, parse).Emit? && ChatLine(last, parse).done
    ensures ScanLines(pre + [last] + post, parse, acc) == ScanLines(pre + [last], parse, acc)
  {
    if pre == [] {
      assert pre + [last] + post == [last] + post;
      assert pre + [last] == [last];
    } else {
      assert (pre + [last] + post)[1..] == pre[1..] + [last] + post;
      assert (pre + [last])[1..] == pre[1..] + [last];
      var a := match ChatLine(pre[0], parse) case Emit(r, _) => acc + r case _ => acc;
      DoneEndsChunk(pre[1..], last, post, parse, a);
    }
  }

  /**
   * Reading chunks one after another: the later chunks continue from where the
   * earlier ones left off (a `done` in them does not stop the read loop), and
   * after a failure nothing later is read.
   */
  lemma {:induction false} ScanChunksAppend(first: seq<string>, rest: seq<string>, parse: string -> Payload, acc: string)
    ensures ScanChunks(first + rest, parse, acc) ==
              var s := ScanChunks(first, parse, acc);
              if s.failure.Some? then s else ScanChunks(rest, parse, s.acc)
  {
    if first == [] {
      assert first + rest == rest;
    } else {
      assert (first + rest)[0] == first[0];
      assert (first + rest)[1..] == first[1..] + rest;
      var s := ScanLines(Lines(first[0]), parse, acc);
      if s.failure.None? {
        ScanChunksAppend(first[1..], rest, parse, s.acc);
      }
    }
  }

  /**
   * The accumulator only ever has text appended: the result is the starting
   * text followed by what the lines contribute, whatever the starting text.
   */
  lemma {:induction false} ScanLinesAppends(lines: seq<string>, parse: string -> Payload, acc: string)
    ensures ScanLines(lines, parse, acc) ==
              var s := ScanLines(lines, parse, ""); Scan(acc + s.acc, s.failure)
  {
    if lines != [] {
      match ChatLine(lines[0], parse)
      case Skip =>
        ScanLinesAppends(lines[1..], parse, acc);
      case Fail(m) =>
      case Emit(r, done) =>
        if !done {
          ScanLinesAppends(lines[1..], parse, acc + r);
          ScanLinesAppends(lines[1..], parse, r);
          assert "" + r == r;
          AppendAssoc(acc, r, ScanLines(lines[1..], parse, "").acc);
        } else {
          assert "" + r == r;
        }
    }
  }

  /** The same for whole chunk sequences: chunk by chunk, text is only appended. */
  lemma {:induction false} ScanChunksAppends(chunks: seq<string>, parse: string -> Payload, acc: string)
    ensures ScanChunks(chunks, parse, acc) ==
              var s := ScanChunks(chunks, parse, ""); Scan(acc + s.acc, s.failure)
  {
    if chunks != [] {
      var t := ScanLines(Lines(chunks[0]), parse, "");
      ScanLinesAppends(Lines(chunks[0]), parse, acc);
      if t.failure.None? {
        ScanChunksAppends(chunks[1..], parse, acc + t.acc);
        ScanChunksAppends(chunks[1..], parse, t.acc);
        AppendAssoc(acc, t.acc, ScanChunks(chunks[1..], parse, "").acc);
      }
    }
  }

  /** Lines without the `data: ` prefix (keep-alives, comments) change nothing. */
  lemma {:induction false} OnlyDataLinesCount(lines: seq<string>, parse: string -> Payload, acc: string)
    requires forall line :: line in lines ==> !IsData(line)
    ensures ScanLines(lines, parse, acc) == Scan(acc, None)
  {
    if lines != [] {
      assert lines[0] in lines;
      OnlyDataLinesCount(lines[1..], parse, acc);
    }
  }

  /** A non-2xx status ends the exchange with the HTTP error, before any text is read. */
  lemma HttpFailureReplacesPlaceholder(status: nat, body: Body, parse: string -> Payload)
    requires !Ok(status)
    ensures FinalTurn(ChatOutcome(Responded(status, body), parse)) == ErrorTurn(HttpError(status))
  {
  }

  /**
   * A stream that closes without any non-empty `response` leaves the
   * placeholder in place, still flagged as loading.
   */
  lemma {:induction false} SilentStreamKeepsPlaceholder(chunks: seq<string>, parse: string -> Payload)
    requires forall c, line :: c in chunks && line in Lines(c) ==> !IsData(line)
    ensures FinalTurn(ChatOutcome(Responded(200, Body(chunks, None)), parse)) == Placeholder
  {
    SilentChunks(chunks, parse);
  }

  lemma {:induction false} SilentChunks(chunks: seq<string>, parse: string -> Payload)
    requires forall c, line :: c in chunks && line in Lines(c) ==> !IsData(line)
    ensures ScanChunks(chunks, parse, "") == Scan("", None)
  {
    if chunks != [] {
      assert chunks[0] in chunks;
      OnlyDataLinesCount(Lines(chunks[0]), parse, "");
      SilentChunks(chunks[1..], parse);
    }
  }

  /** A malformed payload is rethrown, so it ends the exchange with its message. */
  lemma MalformedPayloadFails(chunk: string, payload: string, later: seq<string>, parse: string -> Payload)
    requires |Lines(chunk)| > 0 && Lines(chunk)[0] == DataPrefix + payload
    requires parse(payload).Malformed?
    ensures ScanChunks([chunk] + later, parse, "") == Scan("", Some(parse(payload).message))
  {
    var lines := Lines(chunk);
    assert IsData(lines[0]);
    assert PayloadOf(lines[0]) == payload;
    assert ([chunk] + later)[0] == chunk;
  }

  /** A chunk holding one data line and nothing else is that one line. */
  lemma DataLineAlone(payload: string)
    requires '\n' !in payload
    ensures Lines(DataPrefix + payload) == [DataPrefix + payload]
  {
    var line := DataPrefix + payload;
    TrimEmptyIffAllSpace(line);
    assert line[0] == 'd' && !IsSpace(line[0]);
    LinesOfWholeLines([line]);
  }

  /** One chunk read: its lines are scanned and, unless one failed, reading goes on. */
  lemma FirstChunk(chunk: string, rest: seq<string>, parse: string -> Payload, acc: string)
    ensures var s := ScanLines(Lines(chunk), parse, acc);
            ScanChunks([chunk] + rest, parse, acc) ==
              if s.failure.Some? then s else ScanChunks(rest, parse, s.acc)
  {
    assert ([chunk] + rest)[0] == chunk;
    assert ([chunk] + rest)[1..] == rest;
  }

  /** Scanning a single line. */
  lemma OneLine(line: string, parse: string -> Payload, acc: string)
    ensures var e := ChatLine(line, parse);
            ScanLines([line], parse, acc) ==
              if e.Fail? then Scan(acc, Some(e.message))
              else if e.Emit? then Scan(acc + e.fragment, None)
              else Scan(acc, None)
  {
    assert [line][1..] == [];
  }

  /** Reading a chunk that holds a single line. */
  lemma SingleLineChunk(chunk: string, rest: seq<string>, parse: string -> Payload, acc: string)
    requires |Lines(chunk)| == 1
    ensures var e := ChatLine(Lines(chunk)[0], parse);
            ScanChunks([chunk] + rest, parse, acc) ==
              if e.Fail? then Scan(acc, Some(e.message))
              else if e.Emit? then ScanChunks(rest, parse, acc + e.fragment)
              else ScanChunks(rest, parse, acc)
  {
    var lines := Lines(chunk);
    assert lines == [lines[0]];
    FirstChunk(chunk, rest, parse, acc);
    OneLine(lines[0], parse, acc);
  }

  /** The chunks of a stream that sends each payload as one `data: ` line in a chunk of its own. */
  function Framed(payloads: seq<string>): (chunks: seq<string>)
    ensures |chunks| == |payloads|
    ensures forall i :: 0 <= i < |payloads| ==> chunks[i] == DataPrefix + payloads[i]
  {
    if payloads == [] then [] else [DataPrefix + payloads[0]] + Framed(payloads[1..])
  }

  /** The `response` texts of well-formed, error-free payloads, in order. */
  function Sent(payloads: seq<string>, parse: string -> Payload): string
    requires forall p :: p in payloads ==> parse(p).Obj?
  {
    if payloads == [] then "" else parse(payloads[0]).response + Sent(payloads[1..], parse)
  }

  /**
   * One frame per chunk: the text shown is every `response` in order, and a
   * `done` frame does not stop the stream, since it only leaves the loop over
   * the lines of its own chunk.
   */
  lemma {:induction false} OneFramePerChunk(payloads: seq<string>, parse: string -> Payload, acc: string)
    requires forall p :: p in payloads ==> '\n' !in p && parse(p).Obj? && parse(p).error == ""
    ensures ScanChunks(Framed(payloads), parse, acc) == Scan(acc + Sent(payloads, parse), None)
  {
    if payloads == [] {
      assert acc + "" == acc;
    } else {
      var p := payloads[0];
      assert p in payloads;
      var line := DataPrefix + p;
      DataLineAlone(p);
      assert PayloadOf(line) == p;
      var rest := Framed(payloads[1..]);
      assert Framed(payloads) == [line] + rest;
      SingleLineChunk(line, rest, parse, acc);
      assert forall q :: q in payloads[1..] ==> q in payloads;
      OneFramePerChunk(payloads[1..], parse, acc + parse(p).response);
      AppendAssoc(acc, parse(p).response, Sent(payloads[1..], parse));
    }
  }

  /**
   * Increments "Hel", "lo", " world" and then a `done` frame, one per chunk,
   * leave the assistant turn showing "Hello world", no longer loading.
   */
  lemma HelloWorld(p1: string, p2: string, p3: string, p4: string, parse: string -> Payload)
    requires '\n' !in p1 && '\n' !in p2 && '\n' !in p3 && '\n' !in p4
    requires parse(p1) == Obj("", "Hel", "", false)
    requires parse(p2) == Obj("", "lo", "", false)
    requires parse(p3) == Obj("", " world", "", false)
    requires parse(p4) == Obj("", "", "", true)
    ensures FinalTurn(ChatOutcome(Responded(200, Body(Framed([p1, p2, p3, p4]), None)), parse))
            == Turn(Assistant, "Hello world", false)
  {
    var ps := [p1, p2, p3, p4];
    HelloSent(p1, p2, p3, p4, parse);
    OneFramePerChunk(ps, parse, "");
    assert "" + "Hello world" == "Hello world";
  }

  lemma HelloSent(p1: string, p2: string, p3: string, p4: string, parse: string -> Payload)
    requires parse(p1) == Obj("", "Hel", "", false)
    requires parse(p2) == Obj("", "lo", "", false)
    requires parse(p3) == Obj("", " world", "", false)
    requires parse(p4) == Obj("", "", "", true)
    ensures Sent([p1, p2, p3, p4], parse) == "Hello world"
  {
    var ps := [p1, p2, p3, p4];
    assert ps[1..] == [p2, p3, p4] && ps[1..][1..] == [p3, p4] && ps[1..][1..][1..] == [p4];
    assert [p4][1..] == [];
    assert Sent([p4], parse) == "";
    assert Sent([p3, p4], parse) == " world";
    assert Sent([p2, p3, p4], parse) == "lo world";
  }

  /**
   * A frame cut in two by the network is not put back together: its first
   * half is parsed on its own, and when that is a parse error the exchange
   * fails, although the whole frame would have delivered its text.
   */
  lemma SplitFrameIsNotReassembled(first: string, second: string, text: string, parse: string -> Payload)
    requires '\n' !in first + second
    requires parse(first + second) == Obj("", text, "", false)
    requires parse(first).Malformed?
    ensures ChatOutcome(Responded(200, Body([DataPrefix + (first + second)], None)), parse) == Scan(text, None)
    ensures ChatOutcome(Responded(200, Body([DataPrefix + first, second], None)), parse) ==
              Scan("", Some(parse(first).message))
  {
    assert '\n' !in first;
    assert PayloadOf(DataPrefix + (first + second)) == first + second;
    assert PayloadOf(DataPrefix + first) == first;
    DataLineAlone(first + second);
    DataLineAlone(first);
    SingleLineChunk(DataPrefix + (first + second), [], parse, "");
    assert [DataPrefix + (first + second)] + [] == [DataPrefix + (first + second)];
    assert "" + text == text;
    SingleLineChunk(DataPrefix + first, [second], parse, "");
    assert [DataPrefix + first] + [second] == [DataPrefix + first, second];
  }
}
