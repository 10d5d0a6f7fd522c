/**
 * The dashboard playground: `sendMessage` appends a hidden user turn, posts
 * the trimmed message, and after a 2xx status appends an empty assistant turn
 * whose content it overwrites with the growing text after every well-formed
 * `data: ` line. Malformed payloads are skipped, `done` and `error` are not
 * looked at, and any exception appends an error turn after what is there.
 */
module Playground {
  import opened Options
  import opened Text
  import opened Frames

  /** One entry of `messages`; only the user turns the playground sends are hidden. */
  datatype Message = Message(role: Role, content: string, hidden: bool)

  /** The text of a well-formed payload: `data.response || data.text || ""`. */
  function Fragment(response: string, text: string): (f: string)
    ensures response != "" ==> f == response
    ensures response == "" && text != "" ==> f == text
    ensures response == "" && text == "" ==> f == ""
  {
    if response != "" then response else if text != "" then text else ""
  }

  /**
   * What one line contributes: None for a line without the `data: ` prefix
   * and for a malformed payload (the inner `catch` only logs), otherwise the
   * payload's fragment.
   */
  function PlayLine(line: string, parse: string -> Payload): (f: Option<string>)
    ensures f.Some? <==> IsData(line) && parse(PayloadOf(line)).Obj?
  {
    if !IsData(line) then None
    else match parse(PayloadOf(line))
      case Malformed(_) => None
      case Obj(_, response, text, _) => Some(Fragment(response, text))
  }

  /** The inner `for` loop over the lines of one chunk: `fullResponse +=` per well-formed line. */
  function PlayLines(lines: seq<string>, parse: string -> Payload, acc: string): string
  {
    if lines == [] then acc
    else
      var f := PlayLine(lines[0], parse);
      PlayLines(lines[1..], parse, if f.Some? then acc + f.value else acc)
  }

  /** The `while (true)` read loop over the chunks; nothing ends it before the stream does. */
  function PlayChunks(chunks: seq<string>, parse: string -> Payload, acc: string): string
  {
    if chunks == [] then acc else PlayChunks(chunks[1..], parse, PlayLines(Lines(chunks[0]), parse, acc))
  }

  /** The turn the outer `catch` appends. The message is used as is, with no fallback. */
  function ErrorMessage(message: string): (m: Message)
    ensures m.role == Assistant && !m.hidden
    ensures m.content == "Error: " + message
  {
    Message(Assistant, "Error: " + message, false)
  }

  /**
   * The turns a send appends after the hidden user turn: an error turn alone
   * when `fetch` rejects or the status is not 2xx; otherwise the assistant
   * turn holding the streamed text, followed by an error turn when a read
   * rejects.
   */
  function Appended(reply: Reply, parse: string -> Payload): seq<Message>
  {
    match reply
    case FetchFailed(m) => [ErrorMessage(m)]
    case Responded(status, body) =>
      if !Ok(status) then [ErrorMessage(HttpError(status))]
      else
        [Message(Assistant, PlayChunks(body.chunks, parse, ""), false)]
        + (if body.readError.Some? then [ErrorMessage(body.readError.value)] else [])
  }

  /**
   * `newMessages[newMessages.length - 1].content = fullResponse`: the last
   * entry gets the new content, the others stay as they are.
   */
  function SetLastContent(ms: seq<Message>, text: string): (next: seq<Message>)
    requires |ms| > 0
    ensures |next| == |ms| && next[..|ms| - 1] == ms[..|ms| - 1]
    ensures next[|ms| - 1] == ms[|ms| - 1].(content := text)
  {
    ms[..|ms| - 1] + [ms[|ms| - 1].(content := text)]
  }

  /** The messages the page renders: `!msg.hidden`, in their order. */
  function Visible(ms: seq<Message>): seq<Message>
  {
    if ms == [] then []
    else if ms[0].hidden then Visible(ms[1..])
    else [ms[0]] + Visible(ms[1..])
  }

  class PlaygroundContainer {
    var message: string
    var messages: seq<Message>
    var isLoading: bool

    constructor ()
      ensures message == "" && messages == [] && !isLoading
    {
      message := "";
      messages := [];
      isLoading := false;
    }

    /** The textarea's `onChange`. */
    method SetMessage(value: string)
      modifies this`message
      ensures message == value
    {
      message := value;
    }

    /**
     * `sendMessage()`. `reply` is what `fetch` and the body reader produce,
     * `parse` stands for `JSON.parse`. Returns the `message` field of the
     * posted body, or None when the guard returned first.
     */
    method SendMessage(reply: Reply, parse: string -> Payload) returns (request: Option<string>)
      modifies this
      ensures Trim(old(message)) == "" ==>
                && request == None && message == old(message)
                && messages == old(messages) && isLoading == old(isLoading)
      ensures Trim(old(message)) != "" ==>
                && request == Some(Trim(old(message)))
                && message == ""
                && messages == old(messages) + [Message(User, Trim(old(message)), true)] + Appended(reply, parse)
                && !isLoading
    {
      if Trim(message) == "" {
        return None;
      }
      var userMessage := Trim(message);
      message := "";
      isLoading := true;
      messages := messages + [Message(User, userMessage, true)];
      ghost var base := messages;
      request := Some(userMessage);

      match reply {
        case FetchFailed(m) =>
          messages := messages + [ErrorMessage(m)];
        case Responded(status, body) =>
          if !Ok(status) {
            messages := messages + [ErrorMessage(HttpError(status))];
          } else {
            messages := messages + [Message(Assistant, "", false)];
            var text := ReadStream(body.chunks, parse, base);
            if body.readError.Some? {
              messages := messages + [ErrorMessage(body.readError.value)];
            }
            AppendedOk(base, text, body.readError);
          }
      }
      isLoading := false;
    }

    /**
     * The read loop, from the empty assistant turn on: the text is that of
     * PlayChunks and it is what the last turn shows.
     */
    method ReadStream(chunks: seq<string>, parse: string -> Payload, ghost base: seq<Message>)
      returns (fullResponse: string)
      requires messages == base + [Message(Assistant, "", false)]
      modifies this`messages
      ensures fullResponse == PlayChunks(chunks, parse, "")
      ensures messages == base + [Message(Assistant, fullResponse, false)]
    {
      fullResponse := "";
      var i := 0;
      while i < |chunks|
        invariant 0 <= i <= |chunks|
        invariant messages == base + [Message(Assistant, fullResponse, false)]
        invariant PlayChunks(chunks, parse, "") == PlayChunks(chunks[i..], parse, fullResponse)
      {
        var lines := Lines(chunks[i]);
        fullResponse := ReadChunk(lines, parse, fullResponse, base);
        assert chunks[i..][1..] == chunks[i + 1..];
        i := i + 1;
      }
    }

    /** The loop over the lines of one chunk. */
    method ReadChunk(lines: seq<string>, parse: string -> Payload, acc0: string, ghost base: seq<Message>)
      returns (acc: string)
      requires messages == base + [Message(Assistant, acc0, false)]
      modifies this`messages
      ensures acc == PlayLines(lines, parse, acc0)
      ensures messages == base + [Message(Assistant, acc, false)]
    {
      acc := acc0;
      var j := 0;
      while j < |lines|
        invariant 0 <= j <= |lines|
        invariant messages == base + [Message(Assistant, acc, false)]
        invariant PlayLines(lines, parse, acc0) == PlayLines(lines[j..], parse, acc)
      {
        var line := lines[j];
        assert lines[j..][0] == line && lines[j..][1..] == lines[j + 1..];
        if IsData(line) {
          var data := parse(PayloadOf(line));
          if data.Obj? {
            acc := acc + Fragment(data.response, data.text);
            messages := SetLastContent(messages, acc);
          }
        }
        j := j + 1;
      }
    }
  }

  /** Regrouping the turns appended after a 2xx status. */
  lemma AppendedOk(base: seq<Message>, text: string, readError: Option<string>)
    ensures base + [Message(Assistant, text, false)]
              + (if readError.Some? then [ErrorMessage(readError.value)] else [])
            == base + ([Message(Assistant, text, false)]
              + (if readError.Some? then [ErrorMessage(readError.value)] else []))
  {
  }

  // ---------------------------------------------------------------------------
  // Properties
  // ---------------------------------------------------------------------------

  /** The fragments of the well-formed data lines, in order. */
  function LineFragments(lines: seq<string>, parse: string -> Payload): seq<string>
  {
    if lines == [] then []
    else
      var f := PlayLine(lines[0], parse);
      (if f.Some? then [f.value] else []) + LineFragments(lines[1..], parse)
  }

  /** The fragments of a whole stream, chunk after chunk. */
  function StreamFragments(chunks: seq<string>, parse: string -> Payload): seq<string>
  {
    if chunks == [] then [] else LineFragments(Lines(chunks[0]), parse) + StreamFragments(chunks[1..], parse)
  }

  function Concat(parts: seq<string>): string
  {
    if parts == [] then "" else parts[0] + Concat(parts[1..])
  }

  lemma {:induction false} ConcatAppend(a: seq<string>, b: seq<string>)
    ensures Concat(a + b) == Concat(a) + Concat(b)
  {
    if a == [] {
      assert a + b == b;
    } else {
      ConcatAppend(a[1..], b);
      assert (a + b)[0] == a[0] && (a + b)[1..] == a[1..] + b;
      AppendAssoc(a[0], Concat(a[1..]), Concat(b));
    }
  }

  /** The text after the lines of a chunk is the text before plus all their fragments, in order. */
  lemma {:induction false} PlayLinesIsConcat(lines: seq<string>, parse: string -> Payload, acc: string)
    ensures PlayLines(lines, parse, acc) == acc + Concat(LineFragments(lines, parse))
  {
    if lines == [] {
      assert acc + "" == acc;
    } else {
      var f := PlayLine(lines[0], parse);
      var acc' := if f.Some? then acc + f.value else acc;
      PlayLinesIsConcat(lines[1..], parse, acc');
      var head := if f.Some? then [f.value] else [];
      ConcatAppend(head, LineFragments(lines[1..], parse));
      if f.Some? {
        assert Concat(head) == f.value + "";
        assert acc' + Concat(LineFragments(lines[1..], parse))
            == acc + (f.value + Concat(LineFragments(lines[1..], parse)));
      } else {
        assert Concat(head) == "";
        assert "" + Concat(LineFragments(lines[1..], parse)) == Concat(LineFragments(lines[1..], parse));
      }
    }
  }

  /**
   * The streamed assistant turn shows exactly the in-order concatenation of
   * the fragments of every well-formed data line of the stream.
   */
  lemma {:induction false} PlayChunksIsConcat(chunks: seq<string>, parse: string -> Payload, acc: string)
    ensures PlayChunks(chunks, parse, acc) == acc + Concat(StreamFragments(chunks, parse))
  {
    if chunks == [] {
      assert acc + "" == acc;
    } else {
      var lines := Lines(chunks[0]);
      PlayChunksStep(chunks, parse, acc);
      var fs := LineFragments(lines, parse);
      var rest := StreamFragments(chunks[1..], parse);
      PlayLinesIsConcat(lines, parse, acc);
      PlayChunksIsConcat(chunks[1..], parse, acc + Concat(fs));
      ConcatAppend(fs, rest);
      AppendAssoc(acc, Concat(fs), Concat(rest));
    }
  }

  lemma PlayChunksStep(chunks: seq<string>, parse: string -> Payload, acc: string)
    requires chunks != []
    ensures PlayChunks(chunks, parse, acc) == PlayChunks(chunks[1..], parse, PlayLines(Lines(chunks[0]), parse, acc))
    ensures StreamFragments(chunks, parse) == LineFragments(Lines(chunks[0]), parse) + StreamFragments(chunks[1..], parse)
  {
  }

  /** Reading one batch of chunks and then another is reading them all: the stream never stops early. */
  lemma {:induction false} PlayChunksAppend(first: seq<string>, rest: seq<string>, parse: string -> Payload, acc: string)
    ensures PlayChunks(first + rest, parse, acc) == PlayChunks(rest, parse, PlayChunks(first, parse, acc))
  {
    if first == [] {
      assert first + rest == rest;
    } else {
      assert (first + rest)[0] == first[0];
      assert (first + rest)[1..] == first[1..] + rest;
      PlayChunksAppend(first[1..], rest, parse, PlayLines(Lines(first[0]), parse, acc));
    }
  }

  /** A malformed payload is skipped: the lines around it are read as if it were not there. */
  lemma {:induction false} MalformedSkipped(pre: seq<string>, bad: string, post: seq<string>, parse: string -> Payload, acc: string)
    requires IsData(bad) && parse(PayloadOf(bad)).Malformed?
    ensures PlayLines(pre + [bad] + post, parse, acc) == PlayLines(pre + post, parse, acc)
  {
    if pre == [] {
      assert pre + [bad] + post == [bad] + post;
      assert ([bad] + post)[1..] == post;
      assert pre + post == post;
    } else {
      var f := PlayLine(pre[0], parse);
      assert (pre + [bad] + post)[0] == pre[0] && (pre + [bad] + post)[1..] == pre[1..] + [bad] + post;
      assert (pre + post)[0] == pre[0] && (pre + post)[1..] == pre[1..] + post;
      MalformedSkipped(pre[1..], bad, post, parse, if f.Some? then acc + f.value else acc);
    }
  }

  /** `done` and `error` are never read: changing them changes nothing. */
  lemma DoneAndErrorIgnored(line: string, parse: string -> Payload, parse': string -> Payload, error: string, done: bool)
    requires IsData(line) && parse(PayloadOf(line)).Obj?
    requires parse'(PayloadOf(line)) == parse(PayloadOf(line)).(error := error, done := done)
    ensures PlayLine(line, parse') == PlayLine(line, parse)
  {
  }

  /**
   * Three lines, the middle one malformed: the text is the first line's
   * `response` followed by the last line's `text`.
   */
  lemma MalformedBetweenValid(p1: string, bad: string, p2: string, parse: string -> Payload)
    requires parse(p1) == Obj("", "a", "", false) && parse(bad).Malformed? && parse(p2) == Obj("", "", "b", false)
    ensures PlayLines([DataPrefix + p1, DataPrefix + bad, DataPrefix + p2], parse, "") == "ab"
  {
    var l1, l2, l3 := DataPrefix + p1, DataPrefix + bad, DataPrefix + p2;
    assert PayloadOf(l1) == p1 && PayloadOf(l2) == bad && PayloadOf(l3) == p2;
    MalformedSkipped([l1], l2, [l3], parse, "");
    assert [l1] + [l2] + [l3] == [l1, l2, l3];
    assert [l1] + [l3] == [l1, l3];
    assert [l1, l3][1..] == [l3] && [l3][1..] == [];
    assert PlayLine(l1, parse) == Some("a");
    assert PlayLine(l3, parse) == Some("b");
    assert "" + "a" == "a";
    assert PlayLines([l3], parse, "a") == "a" + "b";
    assert PlayLines([l1, l3], parse, "") == PlayLines([l3], parse, "a");
  }

  /** On a non-2xx status no assistant turn is opened: one error turn follows the user turn. */
  lemma HttpFailureAppendsOneError(status: nat, body: Body, parse: string -> Payload)
    requires !Ok(status)
    ensures Appended(Responded(status, body), parse) == [ErrorMessage(HttpError(status))]
  {
  }

  /**
   * After a 2xx status the assistant turn holding the streamed text comes
   * first, and an error turn follows it exactly when a read rejected.
   */
  lemma OkAppendsStreamThenError(status: nat, body: Body, parse: string -> Payload)
    requires Ok(status)
    ensures |Appended(Responded(status, body), parse)| == if body.readError.Some? then 2 else 1
    ensures Appended(Responded(status, body), parse)[0] ==
              Message(Assistant, PlayChunks(body.chunks, parse, ""), false)
    ensures body.readError.Some? ==>
              Appended(Responded(status, body), parse)[1] == ErrorMessage(body.readError.value)
  {
  }

  /** A read that fails mid-stream keeps the partial text and adds an error turn after it. */
  lemma MidStreamErrorKeepsPartial(status: nat, chunks: seq<string>, m: string, parse: string -> Payload)
    requires Ok(status)
    ensures Appended(Responded(status, Body(chunks, Some(m))), parse) ==
              [Message(Assistant, Concat(StreamFragments(chunks, parse)), false), Message(Assistant, "Error: " + m, false)]
  {
    PlayChunksIsConcat(chunks, parse, "");
    assert "" + Concat(StreamFragments(chunks, parse)) == Concat(StreamFragments(chunks, parse));
  }

  /** Exactly the entries without `hidden` are shown. */
  lemma {:induction false} VisibleIsFilter(ms: seq<Message>)
    ensures |Visible(ms)| <= |ms|
    ensures forall m :: m in Visible(ms) <==> m in ms && !m.hidden
  {
    if ms != [] {
      VisibleIsFilter(ms[1..]);
      assert ms == [ms[0]] + ms[1..];
    }
  }

  lemma {:induction false} VisibleAppend(a: seq<Message>, b: seq<Message>)
    ensures Visible(a + b) == Visible(a) + Visible(b)
  {
    if a == [] {
      assert a + b == b;
    } else {
      var rest := a[1..] + b;
      VisibleAppend(a[1..], b);
      assert (a + b)[0] == a[0] && (a + b)[1..] == rest;
      if !a[0].hidden {
        assert [a[0]] + (Visible(a[1..]) + Visible(b)) == ([a[0]] + Visible(a[1..])) + Visible(b);
      }
    }
  }

  lemma {:induction false} VisibleOfShown(ms: seq<Message>)
    requires forall i :: 0 <= i < |ms| ==> !ms[i].hidden
    ensures Visible(ms) == ms
  {
    if ms != [] {
      VisibleOfShown(ms[1..]);
      assert ms == [ms[0]] + ms[1..];
    }
  }

  /**
   * After a send, the page shows what it showed before followed by every
   * turn the send appended; the user's own message is not shown.
   */
  lemma VisibleAfterSend(before: seq<Message>, userMessage: string, reply: Reply, parse: string -> Payload)
    ensures Visible(before + [Message(User, userMessage, true)] + Appended(reply, parse))
            == Visible(before) + Appended(reply, parse)
  {
    var added := Appended(reply, parse);
    VisibleAppend(before + [Message(User, userMessage, true)], added);
    VisibleAppend(before, [Message(User, userMessage, true)]);
    assert [Message(User, userMessage, true)][1..] == [];
    VisibleOfShown(added);
  }
}
