/**
 * What the two chat clients share about the streamed reply: the transport's
 * answer as seen by the client, how a decoded chunk is cut into candidate
 * lines, which lines carry a payload, and what parsing a payload can yield.
 */
module Frames {
  import opened Options
  import opened Text

  /** The two roles a conversation entry can have. */
  datatype Role = User | Assistant

  /**
   * The outcome of `JSON.parse` on a payload, seen through the fields the
   * clients read. A falsy field is "" (or false). `Malformed` carries the
   * message of the exception thrown while parsing or reading the fields.
   */
  datatype Payload =
    | Malformed(message: string)
    | Obj(error: string, response: string, text: string, done: bool)

  /**
   * The body of a successful response: the decoded chunks `reader.read()`
   * delivers in order, then either a clean end (`readError == None`) or a
   * read that rejects with that message.
   */
  datatype Body = Body(chunks: seq<string>, readError: Option<string>)

  /** What `fetch` gives back: a rejection, or a status and a body. */
  datatype Reply =
    | FetchFailed(message: string)
    | Responded(status: nat, body: Body)

  /** `response.ok`. */
  predicate Ok(status: nat) {
    200 <= status <= 299
  }

  /** The message of the error both clients throw on a non-2xx status. */
  function HttpError(status: nat): (m: string)
    ensures m == "HTTP error! status: " + NatToString(status)
    ensures m != ""
  {
    "HTTP error! status: " + NatToString(status)
  }

  const DataPrefix: string := "data: "

  /** `line.trim() !== ""`. */
  predicate NotBlank(line: string) {
    Trim(line) != ""
  }

  /** Drops the entries that are blank after trimming, keeping the rest in order. */
  function NonBlank(parts: seq<string>): seq<string>
  {
    if parts == [] then []
    else if NotBlank(parts[0]) then [parts[0]] + NonBlank(parts[1..])
    else NonBlank(parts[1..])
  }

  /**
   * `chunk.split("\n").filter((line) => line.trim() !== "")`: every chunk is
   * cut on its own; a line is never continued from the previous chunk.
   */
  function Lines(chunk: string): seq<string>
  {
    NonBlank(Split(chunk, '\n'))
  }

  /** The filter keeps exactly the non-blank entries of its input, and never more of them. */
  lemma {:induction false} NonBlankSpec(parts: seq<string>)
    ensures |NonBlank(parts)| <= |parts|
    ensures forall line :: line in NonBlank(parts) ==> NotBlank(line) && line in parts
    ensures forall line :: line in parts && NotBlank(line) ==> line in NonBlank(parts)
  {
    if parts != [] {
      NonBlankSpec(parts[1..]);
      assert parts == [parts[0]] + parts[1..];
    }
  }

  /** The filter keeps order: filtering two runs one after the other is filtering their concatenation. */
  lemma {:induction false} NonBlankAppend(a: seq<string>, b: seq<string>)
    ensures NonBlank(a + b) == NonBlank(a) + NonBlank(b)
  {
    if a == [] {
      assert a + b == b;
    } else {
      NonBlankAppend(a[1..], b);
      assert (a + b)[0] == a[0] && (a + b)[1..] == a[1..] + b;
      if NotBlank(a[0]) {
        assert [a[0]] + (NonBlank(a[1..]) + NonBlank(b)) == ([a[0]] + NonBlank(a[1..])) + NonBlank(b);
      }
    }
  }

  /** Every line handed to the parser is free of line breaks and not blank. */
  lemma LinesShape(chunk: string)
    ensures forall line :: line in Lines(chunk) ==> '\n' !in line && NotBlank(line)
  {
    var parts := Split(chunk, '\n');
    SplitSpec(chunk, '\n');
    NonBlankSpec(parts);
    forall line | line in Lines(chunk)
      ensures '\n' !in line && NotBlank(line)
    {
      var i :| 0 <= i < |parts| && parts[i] == line;
    }
  }

  /** `line.startsWith("data: ")`. */
  predicate IsData(line: string) {
    StartsWith(line, DataPrefix)
  }

  /** `line.slice(6)`: what follows the prefix. */
  function PayloadOf(line: string): (payload: string)
    requires IsData(line)
    ensures DataPrefix + payload == line
  {
    line[|DataPrefix|..]
  }

  lemma {:induction false} NonBlankKeepsNonBlank(parts: seq<string>)
    requires forall i :: 0 <= i < |parts| ==> NotBlank(parts[i])
    ensures NonBlank(parts) == parts
  {
    if parts != [] {
      NonBlankKeepsNonBlank(parts[1..]);
      assert parts == [parts[0]] + parts[1..];
    }
  }

  /**
   * A chunk made of whole, non-blank lines joined by "\n" yields exactly
   * those lines, in order.
   */
  lemma LinesOfWholeLines(frames: seq<string>)
    requires |frames| >= 1
    requires forall i :: 0 <= i < |frames| ==> '\n' !in frames[i] && NotBlank(frames[i])
    ensures Lines(Join(frames, '\n')) == frames
  {
    SplitJoin(frames, '\n');
    NonBlankKeepsNonBlank(frames);
  }

  /**
   * A blank line at the head of a chunk is dropped: the lines of the chunk
   * are those of what follows it.
   */
  lemma LeadingBlankSkipped(blank: string, rest: string)
    requires '\n' !in blank && !NotBlank(blank)
    ensures Lines(blank + "\n" + rest) == Lines(rest)
  {
    SplitAfterSeparator(blank, '\n', rest);
    NonBlankAppend([blank], Split(rest, '\n'));
    assert [blank][1..] == [];
  }

  /** A chunk whose text begins with a non-blank line has that line as its first line. */
  lemma LinesStartWithFirstLine(parts: seq<string>)
    requires |parts| >= 1 && '\n' !in parts[0] && NotBlank(parts[0])
    ensures |Lines(Join(parts, '\n'))| >= 1 && Lines(Join(parts, '\n'))[0] == parts[0]
  {
    if |parts| == 1 {
      SplitNoSeparator(parts[0], '\n');
    } else {
      SplitAfterSeparator(parts[0], '\n', Join(parts[1..], '\n'));
    }
  }
}
