# LmScale dashboard client: chat streaming, playground, registration and function editor

This project models the front-end logic of the LmScale dashboard in Dafny.
It covers four parts of the client.

- **Chat provider** (`Chat`, `chat_provider.dfy`). `sendMessage` first checks that the trimmed message and the assistant's API key are both non-empty. It appends a user turn and an assistant placeholder that is still loading, then posts the message together with the previous turns. It reads the streamed reply chunk by chunk: each chunk is split on `"\n"`, blank lines are dropped, and `data: ` lines are parsed. Every truthy `response` is appended to the text, which replaces the last turn. A truthy `error` or a malformed payload is rethrown and ends the stream. `done` only leaves the loop over the current chunk. Any failure replaces the last turn with `Error: <message>`, or with `Error: Something went wrong` when the message is empty. The class also models `newChat` and the reset effect on the assistant id.
- **Playground** (`Playground`, `playground.dfy`). It is more lenient.
  - The user turn is hidden.
  - The empty assistant turn is appended only after a 2xx status.
  - Every well-formed data line overwrites that turn's content with the text so far. A fragment is `response || text || ""`.
  - Malformed payloads are skipped, and `done` and `error` are not read.
  - An error appends an `Error: <message>` turn after whatever is already there.
- **Registration** (`Register`, `register.dfy`). It models the first-match validation chain of `handleregister`, the call to `registerUser` and its failure message, `handleChange`, and the input styling of `getInputClassName`.
- **Function editor** (`FunctionEditor`, `functions_editor.dfy`).
  - The query and header parameter tables, and the test arguments the effect derives from them (zero value by type; the header wins).
  - `addParameter`, with its blank-key and duplicate checks, and the delete button.
  - The submit-enabled condition.
  - The URL, body and error message of `handleApiCall`.

Shared pieces:
- `Text` (`text.dfy`) holds the JavaScript string operations used: `trim`, `split`, `startsWith` and decimal rendering.
- `Frames` (`frames.dfy`) holds the transport's answer as the clients see it, and how a chunk is cut into lines.
- `Options` (`options.dfy`) holds `Option`.

The transport and `JSON.parse` are inputs:
- A `Reply` is either a rejected `fetch` or a status with the list of decoded chunks. A read that rejects adds its message.
- `parse: string -> Payload` stands for `JSON.parse` together with reading the fields. `Malformed(message)` is the exception it throws.

The stateful parts are classes whose methods are proved against specification functions:
- `ChatProvider.SendMessage` against `ChatOutcome`, `ScanChunks` and `ScanLines`;
- `PlaygroundContainer.SendMessage` against `Appended` and `PlayChunks`;
- `ModalForm.ResetTestArgs` against `DefaultArgs`.

The lemmas state what the clients promise about those functions.

Three behaviours of the code are worth stating:
- Neither client keeps a partial line across chunks (`src/providers/chat-provider.jsx:67-68`, `src/components/dashboard/playground-container.jsx:59-60`). A frame cut by the network is parsed as two broken lines; `Chat.SplitFrameIsNotReassembled` shows what this costs.
- In the chat provider, a malformed payload is rethrown and ends the exchange (`src/providers/chat-provider.jsx:108-111`). It is not ignored.
- There is no cancel operation.

The registration code accepts passwords of 6 or more characters, and the message it shows for a short password asks for at least 8 (`src/pages/register.jsx:33-36`). The model keeps both, and `Register.ShortPasswordAccepted` states the consequence.

## Model

| member | source | states |
|---|---|---|
| Text.Trim | src/providers/chat-provider.jsx:20-22 | `trim()`, TrimStart then TrimEnd; its properties are stated by TrimStartSpec, TrimEndSpec, TrimEmptyIffAllSpace and TrimShape |
| Text.StartsWith | src/providers/chat-provider.jsx:71 | `startsWith`: the string begins with the prefix; used by Frames.IsData, Chat.ErrorTurn and Register.InputClassName |
| Text.TrimStartSpec | src/providers/chat-provider.jsx:20 | the result is a suffix of the input, everything dropped is white space, and the result does not start with white space |
| Text.TrimEndSpec | src/providers/chat-provider.jsx:20 | the result is a prefix of the input, everything dropped is white space, and the result does not end with white space |
| Text.TrimEmptyIffAllSpace | src/providers/chat-provider.jsx:20 | a string trims to "" exactly when every character is white space, which is what the `!message.trim()` guard tests |
| Text.TrimShape | src/providers/chat-provider.jsx:22 | the trimmed message is a piece of the input with no white space at either end |
| Text.Split | src/providers/chat-provider.jsx:68 | `split("\n")` always gives at least one piece, even for an empty chunk |
| Text.SplitSpec | src/providers/chat-provider.jsx:68 | no piece of a split holds the separator |
| Text.JoinSplit | src/providers/chat-provider.jsx:68 | joining the pieces of a split with the separator gives the chunk back |
| Text.SplitJoin | src/providers/chat-provider.jsx:68 | splitting separator-free pieces joined by the separator gives the same pieces |
| Text.SplitNoSeparator | src/providers/chat-provider.jsx:68 | a chunk without a line break splits into itself alone |
| Text.SplitAfterSeparator | src/providers/chat-provider.jsx:68 | the text before the first line break is the first piece, and the rest splits on its own |
| Text.NatToString | src/providers/chat-provider.jsx:55 | the rendered status is a non-empty numeral with no leading zero |
| Text.ParseNatToString | src/providers/chat-provider.jsx:55 | the rendered status reads back as the status |
| Text.IntToString | src/pages/dashboard/functions.jsx:450-452 | a rendered integer starts with '-' exactly when it is negative |
| Frames.HttpError | src/providers/chat-provider.jsx:54-56 | the message thrown on a non-2xx status is "HTTP error! status: " and the status, and is never empty |
| Frames.Ok | src/providers/chat-provider.jsx:54 | `response.ok`, a status from 200 to 299; the branch it guards is stated by Chat.HttpFailureReplacesPlaceholder and Playground.HttpFailureAppendsOneError |
| Frames.NonBlank | src/providers/chat-provider.jsx:68 | the `filter((line) => line.trim() !== "")` step; stated by NonBlankSpec, NonBlankAppend and NonBlankKeepsNonBlank |
| Frames.Lines | src/providers/chat-provider.jsx:67-68 | a chunk's candidate lines, split on "\n" and filtered, with no carry-over from earlier chunks; stated by LinesShape, LinesOfWholeLines, LeadingBlankSkipped and LinesStartWithFirstLine |
| Frames.IsData | src/providers/chat-provider.jsx:71 | `line.startsWith("data: ")`; stated by Chat.OnlyDataLinesCount and Playground.PlayLine |
| Frames.NonBlankSpec | src/providers/chat-provider.jsx:68 | the filter keeps exactly the lines of its input that are not blank after trimming, never more lines than it was given |
| Frames.NonBlankAppend | src/providers/chat-provider.jsx:68 | the filter keeps order: filtering a concatenation is concatenating the filtered runs |
| Frames.LeadingBlankSkipped | src/providers/chat-provider.jsx:67-68 | a blank line at the head of a chunk is dropped, and the chunk's lines are those of what follows it |
| Frames.LinesShape | src/providers/chat-provider.jsx:67-68 | every candidate line of a chunk is free of line breaks and not blank |
| Frames.PayloadOf | src/providers/chat-provider.jsx:71-73 | `line.slice(6)` on a `data: ` line is the text after the prefix |
| Frames.NonBlankKeepsNonBlank | src/providers/chat-provider.jsx:68 | the blank-line filter keeps a list of non-blank lines whole and in order |
| Frames.LinesOfWholeLines | src/components/dashboard/playground-container.jsx:59-60 | a chunk made of whole non-blank lines joined by "\n" yields exactly those lines |
| Frames.LinesStartWithFirstLine | src/providers/chat-provider.jsx:67-70 | in a chunk whose first line is non-blank, that line is the first line the loop sees |
| Chat.ErrorTurn | src/providers/chat-provider.jsx:118-125 | the error turn is an assistant turn, not loading, whose content is "Error: " and the message, or "Error: Something went wrong" when the message is empty |
| Chat.ScanLines | src/providers/chat-provider.jsx:70-113 | the loop over one chunk's lines as a function of the text so far; stated by ScanLinesStep, ScanLinesFailureIsFinal, DoneEndsChunk and ScanLinesAppends, and ReadChunk is proved equal to it |
| Chat.ScanChunks | src/providers/chat-provider.jsx:63-114 | the read loop over the chunks; stated by ScanChunksAppend, ScanChunksAppends, SilentChunks and OneFramePerChunk, and ReadStream is proved equal to it |
| Chat.ChatOutcome | src/providers/chat-provider.jsx:34-125 | the text and failure one exchange ends with: a rejected fetch, a non-2xx status, or the scan of the stream followed by any read failure; SendMessage is stated in its terms, and HttpFailureReplacesPlaceholder, MalformedPayloadFails and HelloWorld state its cases |
| Chat.Streaming | src/providers/chat-provider.jsx:79-97 | the assistant turn while text arrives: the placeholder until the first text, then the text, no longer loading; stated by SilentStreamKeepsPlaceholder and HelloWorld |
| Chat.FinalTurn | src/providers/chat-provider.jsx:79-125 | the last turn once the exchange is over, the error turn on failure and the streaming turn otherwise; stated by FinishedTurn |
| Chat.Serialize | src/providers/chat-provider.jsx:46-49 | the request's conversation has one entry per previous turn, with the same role and content in the same order |
| Chat.ShowText | src/providers/chat-provider.jsx:82-97 | the updater replaces only the last turn, when it is an assistant turn, with the accumulated text and loading false, and otherwise keeps the conversation |
| Chat.ShowError | src/providers/chat-provider.jsx:118-125 | the catch updater keeps all turns but the last and puts the error turn last |
| Chat.ChatLine | src/providers/chat-provider.jsx:71 | a line without the `data: ` prefix has no effect |
| Chat.FinishedTurn | src/providers/chat-provider.jsx:115-125 | after the catch, the conversation ends with the turn FinalTurn gives for the outcome |
| Chat.ChatProvider.constructor | src/providers/chat-provider.jsx:8-11 | the provider starts with an empty conversation, not loading and no error |
| Chat.ChatProvider.AssistantChanged | src/providers/chat-provider.jsx:14-17 | a different assistant id clears the conversation and the error; the same id leaves them |
| Chat.ChatProvider.NewChat | src/providers/chat-provider.jsx:131-133 | the conversation becomes empty |
| Chat.ChatProvider.SendMessage | src/providers/chat-provider.jsx:19-129 | a blank message or a missing API key changes nothing and sends nothing; otherwise the trimmed message and the serialized previous turns are posted, exactly two turns are appended (the user turn and the reply's final turn as ChatOutcome determines it), and loading ends |
| Chat.ChatProvider.ReadStream | src/providers/chat-provider.jsx:63-114 | the read loop's accumulated text and failure are those of ScanChunks, and the last turn shows that text |
| Chat.ChatProvider.ReadChunk | src/providers/chat-provider.jsx:70-113 | the loop over one chunk's lines ends as ScanLines says, keeping the last turn in step with the text |
| Chat.ScanLinesStep | src/providers/chat-provider.jsx:70-111 | the first remaining line decides: skip, throw, append and leave the chunk on `done`, or append and go on |
| Chat.ScanLinesFailureIsFinal | src/providers/chat-provider.jsx:75-77 | a malformed or error line ends the chunk with its message whatever follows it |
| Chat.DoneEndsChunk | src/providers/chat-provider.jsx:105-107 | lines after a `done` payload in the same chunk have no effect |
| Chat.ScanChunksAppend | src/providers/chat-provider.jsx:63-65 | later chunks go on from where earlier ones stopped, and nothing after a failure is read |
| Chat.ScanLinesAppends | src/providers/chat-provider.jsx:79-80 | within a chunk, text is only ever appended to what was accumulated before |
| Chat.ScanChunksAppends | src/providers/chat-provider.jsx:61-80 | over the whole stream, text is only ever appended to what was accumulated before |
| Chat.OnlyDataLinesCount | src/providers/chat-provider.jsx:71 | lines without the `data: ` prefix neither add text nor fail |
| Chat.HttpFailureReplacesPlaceholder | src/providers/chat-provider.jsx:54-56 | on a non-2xx status, the placeholder becomes the error turn of the HTTP error, before any text is read |
| Chat.SilentStreamKeepsPlaceholder | src/providers/chat-provider.jsx:79-97 | a stream that carries no data line leaves the placeholder in place, still loading |
| Chat.SilentChunks | src/providers/chat-provider.jsx:63-71 | chunks with no data line leave the scan empty and without failure |
| Chat.MalformedPayloadFails | src/providers/chat-provider.jsx:108-111 | a malformed payload at the start of the stream ends the exchange with the parser's message |
| Chat.DataLineAlone | src/providers/chat-provider.jsx:67-68 | a chunk holding one `data: ` line is that single line |
| Chat.FirstChunk | src/providers/chat-provider.jsx:63-70 | the first chunk's lines are scanned, and reading goes on unless one of them failed |
| Chat.OneLine | src/providers/chat-provider.jsx:72-107 | what a single line does: fail with its message, append its response, or nothing |
| Chat.SingleLineChunk | src/providers/chat-provider.jsx:63-111 | a chunk of one line fails, appends that line's response before the rest, or passes over to the rest |
| Chat.Framed | src/providers/chat-provider.jsx:67-71 | a one-frame-per-chunk stream has one `data: ` chunk per payload, in order |
| Chat.OneFramePerChunk | src/providers/chat-provider.jsx:63-107 | with one error-free frame per chunk, the text is every response in order, since `done` does not stop the read loop |
| Chat.HelloWorld | src/providers/chat-provider.jsx:79-107 | the increments "Hel", "lo", " world" and a done frame leave "Hello world", no longer loading |
| Chat.SplitFrameIsNotReassembled | src/providers/chat-provider.jsx:67-73 | a frame delivered whole gives its text, and the same frame cut across two chunks fails on the first half |
| Playground.PlayLines | src/components/dashboard/playground-container.jsx:62-76 | the loop over one chunk's lines; stated by PlayLinesIsConcat, MalformedSkipped and MalformedBetweenValid, and ReadChunk is proved equal to it |
| Playground.PlayChunks | src/components/dashboard/playground-container.jsx:49-77 | the read loop over the chunks; stated by PlayChunksIsConcat, PlayChunksStep and PlayChunksAppend, and ReadStream is proved equal to it |
| Playground.Appended | src/components/dashboard/playground-container.jsx:45-86 | the turns one send adds after the user turn; stated by OkAppendsStreamThenError, HttpFailureAppendsOneError and MidStreamErrorKeepsPartial |
| Playground.Visible | src/components/dashboard/playground-container.jsx:132-135 | `messages.filter((msg) => !msg.hidden)`; stated by VisibleIsFilter, VisibleAppend, VisibleOfShown and VisibleAfterSend |
| Playground.Fragment | src/components/dashboard/playground-container.jsx:66 | `response` wins over `text`, and both falsy give "" |
| Playground.PlayLine | src/components/dashboard/playground-container.jsx:63-74 | a line contributes a fragment exactly when it is a `data: ` line whose payload parses |
| Playground.ErrorMessage | src/components/dashboard/playground-container.jsx:80-86 | the error turn is a visible assistant turn whose content is "Error: " and the message, with no fallback |
| Playground.SetLastContent | src/components/dashboard/playground-container.jsx:67-71 | the in-place write changes only the content of the last message |
| Playground.PlaygroundContainer.constructor | src/components/dashboard/playground-container.jsx:5-7 | the page starts with an empty input, no messages and not loading |
| Playground.PlaygroundContainer.SetMessage | src/components/dashboard/playground-container.jsx:107 | the textarea's change sets the input |
| Playground.PlaygroundContainer.SendMessage | src/components/dashboard/playground-container.jsx:26-90 | a blank input changes nothing; otherwise the input is cleared, the trimmed message is posted, a hidden user turn followed by the turns Appended gives is added, and loading ends |
| Playground.PlaygroundContainer.ReadStream | src/components/dashboard/playground-container.jsx:49-77 | the read loop's text is PlayChunks of the chunks, and it is what the assistant turn shows |
| Playground.PlaygroundContainer.ReadChunk | src/components/dashboard/playground-container.jsx:62-76 | the loop over one chunk's lines ends with PlayLines' text, which the last message shows |
| Playground.OkAppendsStreamThenError | src/components/dashboard/playground-container.jsx:53-86 | after a 2xx status, the first turn added is the assistant turn with the streamed text, and an error turn follows it exactly when a read rejected |
| Playground.ConcatAppend | src/components/dashboard/playground-container.jsx:66 | concatenating two runs of fragments is concatenating their texts |
| Playground.PlayLinesIsConcat | src/components/dashboard/playground-container.jsx:62-71 | after a chunk's lines, the text is the earlier text followed by every fragment of the chunk, in order |
| Playground.PlayChunksIsConcat | src/components/dashboard/playground-container.jsx:49-77 | the assistant turn shows the in-order concatenation of the fragments of every well-formed data line of the stream |
| Playground.PlayChunksStep | src/components/dashboard/playground-container.jsx:55-62 | one turn of the read loop reads the first chunk's lines, then goes on with the rest |
| Playground.PlayChunksAppend | src/components/dashboard/playground-container.jsx:55-57 | the read loop never stops early: a batch of chunks continues from where the previous one ended |
| Playground.MalformedSkipped | src/components/dashboard/playground-container.jsx:64-74 | a malformed payload is skipped and the lines around it are read as if it were absent |
| Playground.DoneAndErrorIgnored | src/components/dashboard/playground-container.jsx:65-66 | a payload's `done` and `error` fields make no difference |
| Playground.MalformedBetweenValid | src/components/dashboard/playground-container.jsx:62-75 | a malformed line between a `response` "a" and a `text` "b" gives "ab" |
| Playground.HttpFailureAppendsOneError | src/components/dashboard/playground-container.jsx:45-53 | on a non-2xx status no assistant turn is opened and exactly one error turn, for the HTTP error, is appended |
| Playground.MidStreamErrorKeepsPartial | src/components/dashboard/playground-container.jsx:53-86 | a read failure keeps the partial assistant turn with all fragments so far and adds the error turn after it |
| Playground.VisibleIsFilter | src/components/dashboard/playground-container.jsx:132-135 | the page shows exactly the messages without `hidden`, never more than there are |
| Playground.VisibleAppend | src/components/dashboard/playground-container.jsx:132-135 | the messages shown keep their order across a concatenation |
| Playground.VisibleOfShown | src/components/dashboard/playground-container.jsx:132-135 | a list without hidden messages is shown whole |
| Playground.VisibleAfterSend | src/components/dashboard/playground-container.jsx:33-36 | after a send, the page shows what it showed before followed by the appended turns, without the user's own message |
| Register.Validate | src/pages/register.jsx:21-40 | any empty field gives "Please fill in all fields" before any length rule, and an error is always one of the five messages |
| Register.Acceptable | src/pages/register.jsx:21-40 | what every rule of the chain together asks of the form; ValidateAcceptsIff ties it to Validate |
| Register.ValidateAcceptsIff | src/pages/register.jsx:21-42 | `registerUser` is reached exactly when email is filled, the name has 3 to 24 characters and the password 6 to 100 |
| Register.NameRulesFirst | src/pages/register.jsx:25-32 | a name that is too short or too long gives its own message before the password is looked at |
| Register.ShortPasswordAccepted | src/pages/register.jsx:33-36 | passwords of 6 or 7 characters pass, and 5 characters are rejected with the message asking for 8 |
| Register.FailureMessage | src/pages/register.jsx:43-45 | the shown failure is the thrown message, or "Failed to create account" when it is empty |
| Register.WithField | src/pages/register.jsx:48-53 | the edited field takes the new value and the other fields stay |
| Register.InputClassName | src/pages/register.jsx:57-66 | the class string always starts with the base classes and a space |
| Register.BordersDiffer | src/pages/register.jsx:62-65 | the error and normal class strings differ |
| Register.ErrorStyleIff | src/pages/register.jsx:60-65 | a field is drawn red exactly when it is empty and an error is shown |
| Register.RegisterPage.constructor | src/pages/register.jsx:11-16 | the form starts empty, with no error |
| Register.RegisterPage.HandleRegister | src/pages/register.jsx:18-46 | a failing rule sets its message and calls nothing; otherwise `registerUser` is called with the form as it is, and a throw sets the failure message |
| Register.RegisterPage.HandleChange | src/pages/register.jsx:48-55 | only the named field changes, and the error is cleared |
| Register.EditClearsErrorStyle | src/pages/register.jsx:54-65 | after an edit, no field is drawn red |
| FunctionEditor.Lookup | src/pages/dashboard/functions.jsx:74 | a key is found exactly when it is one of the table's keys |
| FunctionEditor.KeysAt | src/pages/dashboard/functions.jsx:220-222 | a key belongs to the table exactly when some entry has it |
| FunctionEditor.Replace | src/pages/dashboard/functions.jsx:83-86 | overwriting a key keeps every key in its place and changes only the value under that key |
| FunctionEditor.Put | src/pages/dashboard/functions.jsx:83-86 | after `[key]: type`, the key is present with that type, it is the only key added, and every other key reads as before |
| FunctionEditor.Remove | src/pages/dashboard/functions.jsx:233-234 | after `delete`, exactly that key is gone and every other key reads as before |
| FunctionEditor.RemoveAbsent | src/pages/dashboard/functions.jsx:234 | deleting a key that is not there changes nothing |
| FunctionEditor.RemovePut | src/pages/dashboard/functions.jsx:79-88 | adding a new key and deleting it again restores the table |
| FunctionEditor.PutKeepsUnique | src/pages/dashboard/functions.jsx:83-86 | adding a parameter keeps the table's keys distinct |
| FunctionEditor.RemoveKeepsUnique | src/pages/dashboard/functions.jsx:233-234 | deleting a parameter keeps the table's keys distinct |
| FunctionEditor.With | src/pages/dashboard/functions.jsx:81-87 | replacing one location's table leaves the other location's table as it was |
| FunctionEditor.DistinctKeys | src/pages/dashboard/functions.jsx:76-88 | each location's table is an object whose keys are distinct; ModalForm keeps it as its invariant |
| FunctionEditor.WithKeepsDistinct | src/pages/dashboard/functions.jsx:81-87 | replacing one location's table by one with distinct keys keeps every table's keys distinct |
| FunctionEditor.Assign | src/pages/dashboard/functions.jsx:40-49 | one `forEach` over a table writing each key's zero value; stated by AssignSpec |
| FunctionEditor.DefaultArgs | src/pages/dashboard/functions.jsx:38-61 | the test arguments the effect derives, the query loop then the header loop; stated by DefaultArgsSpec, and ResetTestArgs is proved equal to it |
| FunctionEditor.DefaultFor | src/pages/dashboard/functions.jsx:41-48 | string gives "", number 0, boolean false, and every other type null |
| FunctionEditor.AssignSpec | src/pages/dashboard/functions.jsx:40-49 | one `forEach` writes the zero value of each key's type and leaves keys it does not visit as they were |
| FunctionEditor.DefaultArgsSpec | src/pages/dashboard/functions.jsx:38-61 | every query and header key has exactly one test argument, the zero value of its type, and the header's type wins for a key in both |
| FunctionEditor.SubmitEnabled | src/pages/dashboard/functions.jsx:384-390 | the negation of the `disabled` expression; stated by SubmitNeedsParameter |
| FunctionEditor.Taken | src/pages/dashboard/functions.jsx:73 | `formData.parameters[newParamLocation][trimmedKey]` is truthy; used by AddParameter's own contract |
| FunctionEditor.AlreadyExists | src/pages/dashboard/functions.jsx:74 | the message `Parameter "<key>" already exists`; used by AddParameter's own contract |
| FunctionEditor.SubmitNeedsParameter | src/pages/dashboard/functions.jsx:384-390 | with the derived test arguments, submit is enabled exactly when nothing is in flight, name and endpoint are filled, and at least one parameter exists |
| FunctionEditor.ModalForm.Valid | src/pages/dashboard/functions.jsx:76-88 | the form's invariant: both parameter tables have distinct keys |
| FunctionEditor.ModalForm.constructor | src/pages/dashboard/functions.jsx:20-37 | the form opens on the function's fields, with the add inputs reset, the test arguments derived by the mount effect, and the invariant established |
| FunctionEditor.ModalForm.ResetTestArgs | src/pages/dashboard/functions.jsx:38-61 | the effect's two loops leave the test arguments equal to DefaultArgs of the parameters |
| FunctionEditor.ModalForm.AddParameter | src/pages/dashboard/functions.jsx:71-93 | a blank key changes nothing; a key taken in the chosen location only sets `Parameter "<key>" already exists`; otherwise the key is put in that location only, the inputs reset to "" and "string", the error cleared and the test arguments recomputed; the tables keep distinct keys |
| FunctionEditor.ModalForm.DeleteParameter | src/pages/dashboard/functions.jsx:232-238 | exactly that key goes from that location, the test arguments are recomputed, and the tables keep distinct keys |
| FunctionEditor.AddedParameterGetsDefault | src/pages/dashboard/functions.jsx:38-93 | an added key is in the chosen location only, with its type, and gets the zero value of that type as its test argument, unless it is a query key the header already holds, in which case the header's type wins |
| FunctionEditor.DeletedParameterLosesArg | src/pages/dashboard/functions.jsx:38-61 | a deleted key that no other location holds has no test argument any more |
| FunctionEditor.Spread | src/pages/dashboard/functions.jsx:463 | `{ ...base, ...data }`; stated by SpreadSpec and SpreadKeepsPlace |
| FunctionEditor.Stored | src/pages/dashboard/functions.jsx:447-448 | a `localStorage` item, or null when it is not set; stated by BodyOfOtherCalls |
| FunctionEditor.Render | src/pages/dashboard/functions.jsx:450-455 | how a value reads inside a template literal; DeleteRequest states the string case |
| FunctionEditor.SpreadSpec | src/pages/dashboard/functions.jsx:463 | `{assistantId, ...data}` has the keys of both, and data's fields win |
| FunctionEditor.SpreadKeepsPlace | src/pages/dashboard/functions.jsx:463 | spreading data over an object keeps that object's keys in their places |
| FunctionEditor.ApiRequestFor | src/pages/dashboard/functions.jsx:450-464 | the URL is the base, "/function/" and the endpoint, followed by a query string only for delete, and the body is absent exactly for delete |
| FunctionEditor.DeleteRequest | src/pages/dashboard/functions.jsx:450-463 | a delete posts to ".../function/delete?functionId=<id>" with no body |
| FunctionEditor.BodyOfOtherCalls | src/pages/dashboard/functions.jsx:460-463 | other calls send `assistantId` first and then every field of data, and data's fields win |
| FunctionEditor.CallFailure | src/pages/dashboard/functions.jsx:466-471 | the call returns exactly when the status is ok and the body parses; a non-ok status throws the body's message or "Failed to <endpoint> function" |

## Left out

- Transport and decoding are inputs rather than models. That covers `fetch`, `getReader`, `TextDecoder` (chunks arrive as decoded strings) and `JSON.parse` (the `parse` parameter). Malformed UTF-8 and the decoder's `stream: true` carry-over are not modelled.
- The chat provider's 10 ms pause between responses and its `isFirstResponse` flag are left out. They only pace the display.
- Asynchrony is left out. React batches `setState` updaters and runs them after each await; the model applies each update at once, in program order. Two sends running at the same time, and a reset effect firing during a send, are not modelled.
- The `console.error` calls (`src/providers/chat-provider.jsx:109`, `:116`, `src/components/dashboard/playground-container.jsx:73`, `:79`) only log, and are left out.
- Scrolling, textarea resizing, the Enter-key handler, JSX and CSS other than the register input classes are left out, as are `localStorage` reads (the values are parameters).
- Lengths are counted in Unicode scalar values. JavaScript's `length` counts UTF-16 code units, so a name with characters outside the Basic Multilingual Plane is measured differently.
- Chat.ChatProvider.SendMessage: `error` is declared in the provider but `sendMessage` never sets it, so the model leaves it unchanged. A `previousMessages` list defaulted to `[]` is just an argument here.
- Playground.PlaygroundContainer.SendMessage: line 69 writes into the shared last message object in place. The model copies it as a value, so the aliasing with the previous state array is not modelled. `error.message` is taken to be a string; an error without a message, shown as "Error: undefined", is not modelled.
- FunctionEditor.ModalForm.DeleteParameter: line 234 deletes from the inner object shared with the previous state. The model builds a new table, so that aliasing is not modelled.
- FunctionEditor.ModalForm.AddParameter: a key naming an inherited object property (such as `constructor`) reads as truthy in JavaScript and is reported as already existing. Tables here hold only their own entries, so that case is not modelled.
- FunctionEditor.Keys: JavaScript lists integer-like keys first, before other keys. Tables here keep plain insertion order.
- FunctionEditor: `handleSubmit`, `handleCreate`, `handleUpdate`, `handleDelete`, the test-response view, and the name, endpoint, method and auth-type inputs are not modelled. `getAssistant()` after a successful call is a call into the assistants provider, which is not part of this model. JSON numbers are integers here, not floating point.
- Register.RegisterPage.HandleRegister: `submitting` and the redirect after registration belong to the authentication provider, which is not part of this model. `registerUser`'s outcome is the `registerFailure` parameter.
