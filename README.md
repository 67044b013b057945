# AI Data Model Tool, modelled in Dafny

The AI Data Model Tool lets a user design a relational data model by chatting
with a language model. The Node/Express backend keeps a bounded conversation
buffer. It asks OpenAI (`/api/ai`) or Gemini (`/api/googleAi`) either for chat
replies or for a JSON diagram of tables and relationships. It strips Markdown
code fences from those replies before parsing them. The React frontend shows the
chat, streams replies word by word, and keeps the diagram state: AI-generated
tables, hand-added tables and relationships. It also lets the user add tables
through a form, delete tables and relationships, and view a table's
`CREATE TABLE` text.

This project models that core as Dafny modules, one per source file:

- `ChatHistory` (chatHistory.js): the backend's shared buffer, as a `Store` class. It holds the first entry and the latest nine once more than ten have been added.
- `AiRoute` (aiRoute.js): the OpenAI handlers, as functions on the buffer. A `Router` class runs them statement by statement against the `Store`.
- `GoogleAiRoute` (googleAiRoute.js): the Gemini handlers, their prompts, and the streaming loop.
- `Fences` (the shared reply clean-up): removing every ```` ```json ```` and ```` ``` ```` from a reply.
- `SchemaAI` (schemaAI.js): the response schema, as a datatype with a conformance predicate.
- `InitialNodes` (InitialNodes.tsx): the seed diagram.
- `Services` (Services.tsx): the data-model hook, as the `DataModelServices` class, together with its id slugging and reply formatting.
- `Chat` and `ChatMarkup` (Chat.tsx): the chat panel's state, the word-by-word replay, and the HTML a message is rendered as.
- `ChatContext` (ChatContext.tsx): the frontend's own twenty-message history.
- `SchemaEditor` (SchemaEditor.tsx): the table form.
- `FlowChart` (FlowChart.tsx): the canvas's delete and connect handlers.
- `CustomNode` (CustomNode.tsx): `generateSQL`.

Shared definitions sit in `Strings` (JavaScript's `trim`, `split`, `join`,
`replace`), `Transcript` (entries, the system prompt, the `role: content`
rendering), `Diagram` (nodes and edges), `Json`, `Seqs` and `Wrappers`.

Outside inputs are parameters of the model:

- The language-model calls: the reply text, or that the call threw.
- `JSON.parse` (which texts it accepts and what it makes of them) and `JSON.stringify`.
- reactflow's `addEdge`.
- The `Date.now()` ids and the `Math.random()` positions.
- The server's answers to `fetch`.

## Model

| member | source | states |
|---|---|---|
| ChatHistory.WindowShape | backend/Services/chatHistory.js:31-37 | The window of a history is all of it while it has at most ten entries, and otherwise exactly ten: the first entry and then the latest nine, in order. |
| ChatHistory.AddedShape | backend/Services/chatHistory.js:31-37 | After `addToChatHistory`, the new entry is last and a buffer within the bound stays within it. Below ten entries the entry is appended. At the cap, the entry at index 1 is the one dropped. |
| ChatHistory.WindowStep | backend/Services/chatHistory.js:31-37 | Adding an entry to the window of a history gives the window of the history extended by that entry. |
| ChatHistory.AddedAllIsWindow | backend/Services/chatHistory.js:31-37 | Whatever entries are added, one by one, to a buffer within the bound, the result is the window of the whole history. |
| ChatHistory.TwelveAdded | backend/Services/chatHistory.js:1-37 | Twelve entries added to an empty buffer leave ten: the first, then the last nine. |
| ChatHistory.Read | backend/Services/chatHistory.js:24-29 | `getChatHistory` always puts the trimmed system prompt in front of the buffer. An entry object is never `===` the prompt string, so the other branch is never taken. |
| ChatHistory.Store.constructor | backend/Services/chatHistory.js:2 | The buffer starts empty. |
| ChatHistory.Window | backend/Services/chatHistory.js:31-37 | The buffer a whole history leaves when added entry by entry. `WindowShape` states what it keeps, and `AddedAllIsWindow` ties it to `Added`. |
| ChatHistory.Added | backend/Services/chatHistory.js:31-37 | `addToChatHistory` on a value: push, then cut back to the first entry and the latest nine. `AddedShape` and `AddedTwice` state its effect. |
| ChatHistory.Store.Get | backend/Services/chatHistory.js:24-29 | The read is one longer than the buffer, starts with the system entry and continues with the buffer. It changes nothing. |
| ChatHistory.Store.Add | backend/Services/chatHistory.js:31-37 | The buffer becomes `Added(old buffer, entry)`, and the ten-entry bound is preserved. |
| ChatHistory.Store.Clear | backend/Services/chatHistory.js:39-41 | The buffer is empty, so a read afterwards returns the system entry alone. |
| Transcript.SystemPromptTrimmed | backend/Services/chatHistory.js:4-22 | Trimming the template literal, which opens and closes with a line break, gives exactly the prompt's text. |
| Transcript.RenderedLines | backend/routes/aiRoute.js:78 | There is one `role: content` line per entry, in history order. |
| Transcript.RenderSingleLine | backend/routes/googleAiRoute.js:27 | The rendering of an entry with no line break in its role or content has no line break either. |
| Transcript.RenderLineByLine | backend/routes/googleAiRoute.js:27 | Splitting the joined rendering at line breaks gives back each entry's line, in order. |
| Transcript.Render | backend/routes/aiRoute.js:78 | The `role: content` lines joined by line breaks. `RenderLineByLine` reads them back and `RenderSingleLine` keeps each on its own line. |
| AiRoute.Chat | backend/routes/aiRoute.js:14-43 | A missing or empty message gives 400 and leaves the buffer alone. Otherwise the user entry is added and the provider is shown the prompt plus the buffer. The reply is accepted (200, reply recorded) unless the call threw, or the reply's trimmed text starts with `{` when the message lacks the marker phrase. In either of those cases the answer is 500 and the user entry stays recorded. |
| AiRoute.FormatViolation | backend/routes/aiRoute.js:32 | A reply that starts with `{` after trimming, to a message that is not the generate request. `Chat` answers 500 exactly on it and then records only the user's message. |
| AiRoute.ParseReply | backend/routes/aiRoute.js:86-103 | The answer is 200 exactly when the provider answered and its cleaned reply parses; the body is then the parsed value. A thrown call gives 500 with the route's error. A reply that does not parse gives 500 with the "not in the expected JSON format" error. |
| AiRoute.Structured | backend/routes/aiRoute.js:86-99 | The provider is shown the prompt plus the buffer. On success the raw (uncleaned) reply is recorded as an assistant entry. On any failure the buffer is unchanged. |
| AiRoute.Generate | backend/routes/aiRoute.js:50-104 | `/generateModel` answers 200 exactly when the cleaned reply parses, and records the reply only then. Otherwise it answers 500 and leaves the buffer as it was. |
| AiRoute.Merge | backend/routes/aiRoute.js:106-140 | `/merge` never answers 400, because the message is not checked. It answers 200 exactly when the cleaned reply parses, and records the reply only then. |
| AiRoute.AddedTwice | backend/Services/chatHistory.js:31-37 | Two entries added in turn are the two newest, and the bound is kept. |
| AiRoute.ChatTurnRecorded | backend/routes/aiRoute.js:22-38 | A successful chat turn leaves the user's message and then the reply as the two newest entries, within the bound. |
| AiRoute.ChatShowsUserMessage | backend/routes/aiRoute.js:22-28 | Whatever the provider replies, it was shown the system entry first and the user's message last. |
| AiRoute.FencedReplyAccepted | backend/routes/aiRoute.js:86-99 | A reply wrapped in a ```` ```json ```` fence whose body parses is answered with that parsed body. |
| AiRoute.Router.PostChat | backend/routes/aiRoute.js:14-43 | The statement-by-statement handler gives the response, the buffer, and the history it sent the provider, exactly as `Chat` specifies. |
| AiRoute.Router.PostClear | backend/routes/aiRoute.js:45-48 | The answer is 200 "Chat history cleared", the buffer is empty, and a read returns only the system entry. |
| AiRoute.Router.RecordStructured | backend/routes/aiRoute.js:86-103 | The shared tail of the structured routes gives the response and the buffer that `Structured` specifies. |
| AiRoute.Router.PostGenerateModel | backend/routes/aiRoute.js:50-104 | The handler gives the response and the buffer that `Generate` specifies. |
| AiRoute.Router.PostMerge | backend/routes/aiRoute.js:106-140 | The handler gives the response and the buffer that `Merge` specifies. |
| AiRoute.Router.constructor | backend/routes/aiRoute.js:4-6 | The router works on the shared buffer it is given. |
| Fences.FencePrefix | backend/routes/aiRoute.js:90 | A text starts with ```` ``` ```` exactly when its first three characters are backticks. |
| Fences.NoFenceAfterBacktick | backend/routes/aiRoute.js:90 | After a lone backtick that does not open a fence, the cleaned rest cannot start with two more backticks. |
| Fences.FenceRemovalComplete | backend/routes/aiRoute.js:90 | Removing every ```` ``` ```` left to right leaves no ```` ``` ````. Removal never joins backticks from either side of a removed fence into a new fence. |
| Fences.CleanLeavesNoFence | backend/routes/googleAiRoute.js:102-104 | A cleaned reply contains no code fence. |
| Fences.FencedReplyCleansToBody | backend/routes/googleAiRoute.js:102-104 | A body without backticks comes back unchanged whether or not it is wrapped in a ```` ```json ```` fence. |
| Fences.Clean | backend/routes/aiRoute.js:90 | Both fence markers are removed. `CleanLeavesNoFence` states that no fence is left, and `FencedReplyCleansToBody` that a fenced body comes back whole. |
| GoogleAiRoute.ChatPromptLines | backend/routes/googleAiRoute.js:25-29 | The chat prompt, read line by line, is in order: an empty line, the heading, the first entry (indented), the other entries, the user line, and the closing indentation. |
| GoogleAiRoute.ChatPrompt | backend/routes/googleAiRoute.js:25-29 | The chat template with the rendered history and the message spliced in. `ChatPromptLines` states its lines in order. |
| GoogleAiRoute.GeneratePrompt | backend/routes/googleAiRoute.js:67-95 | The generate template with the rendered history spliced in. `GeneratePromptFrames` states where the history goes. |
| GoogleAiRoute.GeneratePromptFrames | backend/routes/googleAiRoute.js:67-95 | The generate prompt opens with its instructions and closes with the rendered history. |
| GoogleAiRoute.MergePrompt | backend/routes/googleAiRoute.js:128-156 | The merge template with the message and the rendered history spliced in. `MergePromptFrames` states where they go. |
| GoogleAiRoute.MergePromptFrames | backend/routes/googleAiRoute.js:128-156 | The merge prompt opens with its instructions followed by the user's message, and closes with the rendered history. |
| GoogleAiRoute.IndentedLines | backend/routes/googleAiRoute.js:27 | The indented rendering splits into the indented first entry followed by the other entries' lines. |
| GoogleAiRoute.FramedLines | backend/routes/googleAiRoute.js:25-29 | A text framed by an empty first line, a heading and two closing lines splits into exactly those lines around the body's lines. |
| GoogleAiRoute.Texts | backend/routes/googleAiRoute.js:39-44 | The texts written are exactly the chunks' texts; chunks without text are skipped. Order is stated by `TextsAppend` and `TextsOfOne`. |
| GoogleAiRoute.TextsAppend | backend/routes/googleAiRoute.js:39-44 | The texts of two stretches of the stream are the texts of the first followed by those of the second, so the order of arrival is kept and nothing is dropped or repeated. |
| GoogleAiRoute.TextsOfOne | backend/routes/googleAiRoute.js:40-43 | A chunk writes its text if it has one, and nothing otherwise. |
| GoogleAiRoute.Relay | backend/routes/googleAiRoute.js:36-46 | The loop writes `Texts(chunks)`, and `aiResponse` is their concatenation. |
| GoogleAiRoute.PostChat | backend/routes/googleAiRoute.js:17-53 | A missing message, or a `chatHistory` that is not an array, gives 400. A provider that throws gives 500. Otherwise the body is the stream of chunk texts of the prompt built from the history and the message. |
| GoogleAiRoute.ClearReply | backend/routes/googleAiRoute.js:55-57 | The answer is 200 "Chat history cleared"; there is no server state to clear. |
| GoogleAiRoute.GoogleGenerate | backend/routes/googleAiRoute.js:59-118 | A falsy `chatHistory` gives 400. A truthy non-array gives 500, because the `.map` throws inside the `try`. An array gives the parse-or-error answer for the prompt built from it. The answer is 200 exactly when that reply parses after cleaning. |
| GoogleAiRoute.MergeModel | backend/routes/googleAiRoute.js:120-180 | A missing message or a falsy `chatHistory` gives 400, and a truthy non-array gives 500. Otherwise the answer is the parse-or-error answer for the merge prompt, and it is 200 exactly when the cleaned reply parses. |
| GoogleAiRoute.GenerateRoutesAgree | backend/routes/googleAiRoute.js:100-117 | For the same provider reply, `/googleGenerate` and OpenAI's `/generateModel` send the same HTTP answer. |
| SchemaAI.ConformingTopLevel | backend/schemaAI.js:4-62 | A response the schema admits is an object with both `nodes` and `edges`, and both are arrays. |
| SchemaAI.Conforms | backend/schemaAI.js:4-62 | What the response schema admits. Its meaning is stated by `ConformingTopLevel`, `ConformingNode`, `ConformingColumn` and `ConformingEdge`, and every diagram's JSON form conforms (`EncodedDiagramConforms`). |
| SchemaAI.ConformingNode | backend/schemaAI.js:11-44 | Every node of an admitted response has a string `id` and an object `data`. |
| SchemaAI.ConformingColumn | backend/schemaAI.js:23-31 | Every column in a node's `schema` list has a string `name` and a string `type`. |
| SchemaAI.ConformingEdge | backend/schemaAI.js:46-59 | Every edge of an admitted response has a string `id`, `source` and `target`. |
| SchemaAI.SchemaAllowsDanglingEdge | backend/schemaAI.js:46-61 | The schema admits a response with an edge to a table that is not among its nodes: nothing in it ties edges to nodes. |
| SchemaAI.ColumnConforms | backend/schemaAI.js:23-31 | The JSON form of any column is admitted by the column schema. |
| SchemaAI.DataConforms | backend/schemaAI.js:16-34 | The JSON form of any table's data is admitted by the `data` schema. |
| SchemaAI.NodeConforms | backend/schemaAI.js:11-44 | The JSON form of any node is admitted by the node schema. |
| SchemaAI.EdgeConforms | backend/schemaAI.js:49-58 | The JSON form of any edge is admitted by the edge schema. |
| SchemaAI.EncodedDiagramConforms | backend/schemaAI.js:4-62 | Any diagram the frontend holds, written out as JSON, is a response the schema admits. |
| InitialNodes.SeedIdsDistinct | frontend/src/components/Services/InitialNodes.tsx:4-104 | There are five seed tables and four seed relationships, each group with pairwise distinct ids. |
| InitialNodes.SeedEdgesReferenceNodes | frontend/src/components/Services/InitialNodes.tsx:79-104 | Every seed relationship starts and ends at a seed table. |
| InitialNodes.SeedConforms | frontend/src/components/Services/InitialNodes.tsx:4-77 | Every seed table is a `custom` node, and the seed diagram as JSON is admitted by the response schema. |
| Diagram.NodeIds | frontend/src/components/FlowChart.tsx:118-119 | The id set contains exactly the ids of the given nodes. |
| Services.LowerChar | frontend/src/components/Services/Services.tsx:20 | An upper-case ASCII letter becomes the lower-case letter at the same place in the alphabet, so the result is never upper case. Every other character is unchanged, and white space stays white space. |
| Services.Lower | frontend/src/components/Services/Services.tsx:20 | `toLowerCase` is applied character by character and keeps the length. |
| Services.Underscored | frontend/src/components/Services/Services.tsx:20 | The result has no white space, and each of its characters is `_` or comes from the input. A text without white space is unchanged. |
| Services.UnderscoredWord | frontend/src/components/Services/Services.tsx:20 | A stretch without white space is copied as it is, whatever follows it. |
| Services.UnderscoredRun | frontend/src/components/Services/Services.tsx:20 | A maximal run of white space, however long, becomes a single `_`. |
| Services.Slug | frontend/src/components/Services/Services.tsx:20 | A new table's id has no white space and no upper-case ASCII letter. A name without white space gives its lower-cased self. |
| Services.SlugIdempotent | frontend/src/components/Services/Services.tsx:20 | Slugging an id gives the same id. |
| Services.SlugOfTwoWords | frontend/src/components/Services/Services.tsx:20 | The name "Order Items" gets the id "order_items". |
| Services.Customized | frontend/src/components/Services/Services.tsx:86-89 | Retyping keeps the length and every node's id, data and position, and makes every node `custom`. |
| Services.CustomizedKeepsIds | frontend/src/components/Services/Services.tsx:86-95 | Retyping keeps the id set, so relationships reference the retyped nodes exactly when they referenced the originals. |
| Services.CustomizedIdempotent | frontend/src/components/Services/Services.tsx:86-89 | Retyping twice is the same as retyping once. |
| Services.NewNode | frontend/src/components/Services/Services.tsx:19-30 | The new node's id is the slug of the name, its type is `custom`, its data is the name and columns, and it is placed at the drawn position. |
| Services.OutgoingMessage | frontend/src/components/Services/Services.tsx:119-121 | The message starts with the input. It equals the input exactly when there are no manual nodes; otherwise the manual-nodes note and their JSON follow. |
| Services.BreakBeforeItems | frontend/src/components/Services/Services.tsx:135 | Inserting breaks never shortens the text. Where the breaks go is stated by `BreaksBeforeEveryItem`. |
| Services.BreaksBeforeEveryItem | frontend/src/components/Services/Services.tsx:135 | Matching left to right puts a line break before every digit, dot and white-space marker and nowhere else. The reference is `BreakBeforeEach`, which inserts a break at each position where a marker starts. |
| Services.BreakBeforeEachKeepsVisible | frontend/src/components/Services/Services.tsx:135 | The inserted breaks are white space: the characters that are not white space are kept, in order. |
| Services.BreaksOnlyAdded | frontend/src/components/Services/Services.tsx:135 | Apart from the inserted line breaks, the text is unchanged. |
| Services.TrimKeepsAbsent | frontend/src/components/Services/Services.tsx:136-138 | Trimming never introduces a character. |
| Services.TrimmedAll | frontend/src/components/Services/Services.tsx:138 | Line `i` of the result is line `i` trimmed. |
| Services.ReplyLines | frontend/src/components/Services/Services.tsx:134-139 | Every line kept is non-empty, trimmed and free of line breaks. What the lines hold is stated by `ReplyLinesKeepText`. |
| Services.ReplyLinesKeepText | frontend/src/components/Services/Services.tsx:134-139 | Together, the kept lines hold every character of the reply that is not white space, in order, and no other. |
| Services.TrimmedAllKeepsVisible | frontend/src/components/Services/Services.tsx:138 | Trimming every line keeps the characters that are not white space, in order. |
| Services.DropEmptyKeepsJoin | frontend/src/components/Services/Services.tsx:139 | Dropping the empty lines does not change their concatenation. |
| Services.TrimmedLines | frontend/src/components/Services/Services.tsx:137-138 | Trimming lines that have no line break gives trimmed lines that have none. |
| Services.FormatReply | frontend/src/components/Services/Services.tsx:134-140 | The formatted reply is the kept lines joined by line breaks. |
| Services.FormatReplyKeepsText | frontend/src/components/Services/Services.tsx:134-140 | Formatting moves white space only: every other character of the reply is kept, in order, and none is added. |
| Services.FormatReplyLines | frontend/src/components/Services/Services.tsx:134-140 | Read back line by line, the formatted reply gives the kept lines. It has no empty line and no untrimmed line. |
| Services.LinesRoundTrip | frontend/src/components/Services/Services.tsx:137-140 | Splitting the join of break-free lines gives the lines back, and no lines join to the empty text. |
| Services.FormatReplyBreaks | frontend/src/components/Services/Services.tsx:134-140 | The formatted reply has one line break fewer than it has lines. |
| Services.DataModelServices.constructor | frontend/src/components/Services/Services.tsx:7-12 | The diagram starts as the seed diagram, not loading and on the first add, with no manual or AI tables. |
| Services.DataModelServices.HandleAddNode | frontend/src/components/Services/Services.tsx:17-37 | The new node is appended to the manual tables and the screen shows the AI tables followed by the manual ones. The relationships and AI tables stay unchanged, and the first-add flag is cleared. |
| Services.DataModelServices.ApplyFetched | frontend/src/components/Services/Services.tsx:49-71 | On an ok answer, the retyped tables replace the AI and on-screen tables, the relationships are replaced, and the manual tables are emptied. On a failure, the diagram state is unchanged. Loading ends either way. |
| Services.DataModelServices.GenerateDataModel | frontend/src/components/Services/Services.tsx:76-107 | It reports success exactly when the server answered with a diagram, and the diagram state follows `ApplyFetched`. |
| Services.DataModelServices.MergeDataModel | frontend/src/components/Services/Services.tsx:38-75 | It behaves the same as `GenerateDataModel`: success exactly on a diagram answer, and the same new state. |
| Services.DataModelServices.ResetNodesAndEdges | frontend/src/components/Services/Services.tsx:109-114 | Tables, relationships and manual tables are emptied and the first-add flag is set. The AI tables and loading are unchanged. |
| Chat.Upserted | frontend/src/components/Chat.tsx:89-103 | The last message is an assistant message with the streamed text. If the last message was already the assistant's, only its content changes; otherwise a new message is appended. |
| Chat.UpsertOverwrites | frontend/src/components/Chat.tsx:89-103 | A later tick overwrites an earlier one, so a replay grows one assistant message and does not append a new one each tick. |
| Chat.SpacedAppend | frontend/src/components/Chat.tsx:87 | Shifting the words of `a` and then those of `b` yields the text for `a` followed by the text for `b`. |
| Chat.SpacedIsJoin | frontend/src/components/Chat.tsx:87 | The streamed text is the words joined by spaces, plus a trailing space. |
| Chat.ReplayedChunk | frontend/src/components/Chat.tsx:75-87 | A chunk split at spaces and replayed word by word is the chunk plus one trailing space. |
| Chat.ReplayPreservesOrder | frontend/src/components/Chat.tsx:75-87 | Chunks replayed in full read as the chunks in arrival order, each followed by a space. |
| Chat.WordStream.OnChunk | frontend/src/components/Chat.tsx:74-75 | The chunk's words are queued behind the words already waiting. |
| Chat.WordStream.Tick | frontend/src/components/Chat.tsx:85-112 | A tick shifts a word exactly when the queue is not empty, appending that word and a space to the streamed text. The invariant is preserved: the shown words followed by the queued ones are all the words received, and the streamed text spells the shown words. |
| Chat.WordStream.constructor | frontend/src/components/Chat.tsx:67-68 | The queue and the streamed text start empty, and the stream invariant holds. |
| Chat.ArrivedChunks | frontend/src/components/Chat.tsx:74-75 | The chunks handed to `onData` among the stream's events: a string is one of them exactly when it arrived as a chunk, and there are no more of them than events. |
| Chat.Replay | frontend/src/components/Chat.tsx:67-112 | Chunks reaching `onData`, interleaved with any firings of the interval, followed by firings until the queue is empty, leave as the streamed text every chunk in arrival order, each followed by one space. The `WordStream` invariant is kept throughout. |
| Chat.ChatPanel.constructor | frontend/src/components/Chat.tsx:39-41 | There are no messages, the input is empty, and the panel is not loading. |
| Chat.ChatPanel.SetInput | frontend/src/components/Chat.tsx:40 | Only the input changes. |
| Chat.ChatPanel.HandleSubmit | frontend/src/components/Chat.tsx:55-65 | A blank input (all white space) changes nothing. Otherwise the untrimmed input is sent and appended as a user message, the box is emptied, and loading starts. |
| Chat.ChatPanel.ShowStreamed | frontend/src/components/Chat.tsx:89-103 | The messages become `Upserted(old messages, streamed text)`. |
| Chat.ChatPanel.FetchFailed | frontend/src/components/Chat.tsx:116-127 | One assistant error message is appended and loading ends. |
| Chat.ChatPanel.HandleClear | frontend/src/components/Chat.tsx:132-152 | The diagram is reset first, whatever the server answers. The messages are emptied only when the answer is ok. |
| ChatMarkup.BoldEnd | frontend/src/components/Chat.tsx:214 | The lazy `.*?` stops at the FIRST `**`: the result is a `**` with no earlier `**` and no line terminator before it; `None` exactly when every `**` has a line terminator before it. |
| ChatMarkup.IndexOf | frontend/src/components/Chat.tsx:215 | The result is the first index of the character. |
| ChatMarkup.BoldAddsOnlyMarkup | frontend/src/components/Chat.tsx:214 | The bold pass adds no character beyond its `<strong>` markup. |
| ChatMarkup.CodeSpansAddOnlyMarkup | frontend/src/components/Chat.tsx:215 | The code pass adds no character beyond its `<strong>` markup. |
| ChatMarkup.RenderContent | frontend/src/components/Chat.tsx:212-215 | The rendered HTML contains no backslash; `RenderBoldSpan` and `RenderCodeSpan` state that bold and code spans are shown as `<strong>…</strong>`. |
| ChatMarkup.SpanCount | frontend/src/components/Chat.tsx:215 | A rendered span adds no backtick. |
| ChatMarkup.PairCount | frontend/src/components/Chat.tsx:215 | A backtick pair and its content account for exactly two backticks. |
| ChatMarkup.CodeSpansLeaveOddBacktick | frontend/src/components/Chat.tsx:215 | Backticks pair up left to right; at most one, the odd one out, is left in the output. |
| ChatMarkup.CodeSpansPlain | frontend/src/components/Chat.tsx:215 | Text without backticks is unchanged by the code pass. |
| ChatMarkup.BoldPlain | frontend/src/components/Chat.tsx:214 | Text without asterisks is unchanged by the bold pass. |
| ChatMarkup.Bold | frontend/src/components/Chat.tsx:214 | The `**…**` pass. `BoldSpan` states that a closed span on one line becomes `<strong>x</strong>`; `BoldAddsOnlyMarkup` and `BoldPlain` state what it leaves alone. |
| ChatMarkup.BoldEndAfter | frontend/src/components/Chat.tsx:214 | After an opening `**`, the lazy match stops at the `**` that closes a text holding no `**`, not ending in `*` and holding no line terminator. |
| ChatMarkup.BoldSpan | frontend/src/components/Chat.tsx:214 | `**x**` followed by any text becomes `<strong>x</strong>` followed by the bold pass of that text. |
| ChatMarkup.LineBreaksBeforeStars | frontend/src/components/Chat.tsx:214 | The `.` of `.*?` does not cross a line terminator: a `**` behind one in the tail stays behind one in the whole text. |
| ChatMarkup.CodeSpans | frontend/src/components/Chat.tsx:215 | The backtick pass. `CodeSpan` states that `` `x` `` becomes `<strong>x</strong>`; `CodeSpansAddOnlyMarkup`, `CodeSpansLeaveOddBacktick` and `CodeSpansPlain` state the rest. |
| ChatMarkup.CodeSpan | frontend/src/components/Chat.tsx:215 | `` `x` `` followed by any text, with no backtick in `x`, becomes `<strong>x</strong>` followed by the code pass of that text. |
| ChatMarkup.PlainRendersAsIs | frontend/src/components/Chat.tsx:212-215 | A message without backslashes, asterisks or backticks is shown as written. |
| ChatMarkup.RenderBoldSpan | frontend/src/components/Chat.tsx:212-215 | A message `**x**`, with `x` on one line and free of backslashes, asterisks and backticks, is shown as `<strong>x</strong>`. |
| ChatMarkup.RenderCodeSpan | frontend/src/components/Chat.tsx:212-215 | A message `` `x` ``, with `x` free of backslashes, asterisks and backticks, is shown as `<strong>x</strong>`. |
| ChatContext.InitialHistory | frontend/src/components/global/ChatContext.tsx:43-45 | The initial history is exactly one message, the system message. |
| ChatContext.WithMessage | frontend/src/components/global/ChatContext.tsx:47-55 | The message is last. Below twenty, it is simply appended. At the cap, the length is kept and index 1 is removed: the multiset loses `h[1]` and gains the message. |
| ChatContext.WithMessageWellFormed | frontend/src/components/global/ChatContext.tsx:47-55 | A user or assistant message keeps the history well formed: the system message first and alone, and within the cap. |
| ChatContext.SpliceOut | frontend/src/components/global/ChatContext.tsx:51 | `splice(index, 1)` on an array shifts the rest one place left. |
| ChatContext.AddUpdater | frontend/src/components/global/ChatContext.tsx:48-54 | The copy-push-splice updater computes `WithMessage`. |
| ChatContext.ChatProvider.constructor | frontend/src/components/global/ChatContext.tsx:43-45 | The history starts as the initial history, which is well formed. |
| ChatContext.ChatProvider.AddMessage | frontend/src/components/global/ChatContext.tsx:47-55 | The history becomes `WithMessage(old history, message)` and stays well formed. |
| ChatContext.ChatProvider.ClearChat | frontend/src/components/global/ChatContext.tsx:57-59 | The history is reset to the system message alone. |
| SchemaEditor.WithField | frontend/src/components/SchemaEditor.tsx:29 | Only the chosen field takes the value; the id and the other field are kept. |
| SchemaEditor.ColumnsChanged | frontend/src/components/SchemaEditor.tsx:26-32 | Exactly the columns with the id are updated; all others are kept, in place. |
| SchemaEditor.ColumnsWithout | frontend/src/components/SchemaEditor.tsx:34-36 | The result is exactly the columns with other ids, in their order, each as many times as in the input. |
| SchemaEditor.Projected | frontend/src/components/SchemaEditor.tsx:44 | Each column becomes its name and type, without id or constraints. |
| SchemaEditor.ChangeIdempotent | frontend/src/components/SchemaEditor.tsx:26-32 | The same change made twice is the same as making it once. |
| SchemaEditor.ChangeThenDelete | frontend/src/components/SchemaEditor.tsx:26-36 | Deleting a column after changing it is the same as deleting it directly. |
| SchemaEditor.DeleteAbsent | frontend/src/components/SchemaEditor.tsx:34-36 | Deleting an unused id changes nothing. |
| SchemaEditor.AddKeepsIdsDistinct | frontend/src/components/SchemaEditor.tsx:19-24 | Adding a column with a fresh id keeps the ids distinct. |
| SchemaEditor.Editor.constructor | frontend/src/components/SchemaEditor.tsx:14-15 | The name is empty and there are no columns. |
| SchemaEditor.Editor.SetTableName | frontend/src/components/SchemaEditor.tsx:14 | Only the name changes. |
| SchemaEditor.Editor.AddColumn | frontend/src/components/SchemaEditor.tsx:19-24 | An empty `UUID` column with the fresh id is appended. |
| SchemaEditor.Editor.ChangeColumn | frontend/src/components/SchemaEditor.tsx:26-32 | The columns become `ColumnsChanged`. |
| SchemaEditor.Editor.DeleteColumn | frontend/src/components/SchemaEditor.tsx:34-36 | The columns become `ColumnsWithout`. |
| SchemaEditor.Editor.Submit | frontend/src/components/SchemaEditor.tsx:38-48 | An empty name raises the alert and changes nothing. Otherwise the name and projected columns are submitted and the form is reset. |
| FlowChart.NodesWithout | frontend/src/components/FlowChart.tsx:118 | The result is exactly the nodes with another id, in order, each as many times as in the input. |
| FlowChart.EdgesNotTouching | frontend/src/components/FlowChart.tsx:119 | The result is exactly the edges that neither start nor end at the id, in order, each as many times as in the input. |
| FlowChart.EdgesWithout | frontend/src/components/FlowChart.tsx:123 | The result is exactly the edges with another id, in order, each as many times as in the input. |
| FlowChart.DeleteNodeKeepsIntegrity | frontend/src/components/FlowChart.tsx:115-121 | Deleting a table and its relationships keeps every remaining relationship between existing tables; none of them mentions the deleted table. |
| FlowChart.DeleteEdgeKeepsIntegrity | frontend/src/components/FlowChart.tsx:122-124 | Deleting relationships keeps referential integrity. |
| FlowChart.Canvas.constructor | frontend/src/components/FlowChart.tsx:69-77 | The canvas holds the given diagram, with no selection, no menu, no pending connection, an empty label and the dialog closed. |
| FlowChart.Canvas.OnConnect | frontend/src/components/FlowChart.tsx:82-85 | The connection is pending and the dialog is open; nothing else changes. |
| FlowChart.Canvas.SetEdgeLabel | frontend/src/components/FlowChart.tsx:72 | Only the label changes. |
| FlowChart.Canvas.HandleAddEdge | frontend/src/components/FlowChart.tsx:87-95 | Without a pending connection nothing happens. Otherwise `addEdge` adds the labelled connection, and the label and dialog are reset. |
| FlowChart.Canvas.HandleModalClose | frontend/src/components/FlowChart.tsx:97-100 | The label is emptied and the dialog is closed. |
| FlowChart.Canvas.OpenContextMenu | frontend/src/components/FlowChart.tsx:102-112 | The element is selected and the menu is anchored at it. |
| FlowChart.Canvas.HandleDelete | frontend/src/components/FlowChart.tsx:114-128 | A selected table goes, with its relationships and its manual copy. A selected relationship goes alone. Referential integrity is preserved, and the menu closes. |
| FlowChart.Canvas.HandleMenuClose | frontend/src/components/FlowChart.tsx:130-133 | The selection and menu are cleared. |
| CustomNode.ColumnSqls | frontend/src/components/CustomNode.tsx:17-21 | Column `i`'s text is `name type` followed by ` constraints` when there are constraints. |
| CustomNode.ColumnLines | frontend/src/components/CustomNode.tsx:22-24 | Each column line is indented and, except for the last, ends in a comma. With no columns there is one indented empty line. |
| CustomNode.SqlLines | frontend/src/components/CustomNode.tsx:24 | The statement has the header, the column lines and the closing `);`. |
| CustomNode.IndentedColumns | frontend/src/components/CustomNode.tsx:22-24 | The indented `,\n  ` join of the columns equals the column lines joined by line breaks. |
| CustomNode.GenerateSqlIsLines | frontend/src/components/CustomNode.tsx:16-25 | `generateSQL()` is its lines joined by line breaks. |
| CustomNode.GenerateSql | frontend/src/components/CustomNode.tsx:16-25 | `generateSQL()`. `GenerateSqlIsLines`, `SqlReadsLineByLine`, `SqlLineCount` and `EmptySchemaSql` state its shape. |
| CustomNode.SqlLinesSingle | frontend/src/components/CustomNode.tsx:16-25 | With single-line names, types and constraints, no line of the statement contains a break. |
| CustomNode.SqlReadsLineByLine | frontend/src/components/CustomNode.tsx:16-25 | Split at line breaks, the statement gives back exactly its lines. |
| CustomNode.SqlLineCount | frontend/src/components/CustomNode.tsx:16-25 | With n >= 1 columns the statement has exactly n + 1 line breaks. |
| CustomNode.EmptySchemaSql | frontend/src/components/CustomNode.tsx:16-25 | A table without columns still gets the indented empty line. |
| CustomNode.ColumnWords | frontend/src/components/CustomNode.tsx:18-21 | Splitting a column's text at spaces gives back its name, its type and then the words of its constraints. |
| Strings.Trim | frontend/src/components/Chat.tsx:57 | `trim()` drops exactly the leading and trailing white space: the result is a slice of the input, framed by white space only, with neither end white space. |
| Strings.TrimStart | frontend/src/components/Services/Services.tsx:20 | Only leading white space is dropped. |
| Strings.TrimEmptyIff | frontend/src/components/Chat.tsx:57 | `input.trim()` is empty exactly when the input is all white space. |
| Strings.TrimIdempotent | frontend/src/components/Services/Services.tsx:136-138 | A trimmed text is its own trim. |
| Strings.TrimFramed | backend/Services/chatHistory.js:26 | Trimming one white-space character from each side of a trimmed text gives the text. |
| Strings.Split | frontend/src/components/Chat.tsx:75 | `split(c)` gives at least one piece, and no piece contains `c`. |
| Strings.JoinSplit | frontend/src/components/Chat.tsx:75 | Joining the pieces of a split with the separator gives back the text. |
| Strings.SplitJoin | frontend/src/components/Services/Services.tsx:137-140 | Splitting the join of separator-free pieces gives back the pieces. |
| Strings.SplitConcat | frontend/src/components/Services/Services.tsx:137 | A separator splits a text into the pieces of each side, side by side. |
| Strings.JoinAppend | frontend/src/components/CustomNode.tsx:22 | Joining two non-empty lists is their joins around one separator. |
| Strings.SplitRuns | frontend/src/components/Services/Services.tsx:137 | `split(/\n+/)` gives at least one piece, and no piece has a line break. The pieces are those of `split('\n')` once each run of line breaks is squeezed to one. |
| Strings.Squeezed | frontend/src/components/Services/Services.tsx:137 | No two separators are adjacent in the result. It is no longer than the input and starts with the same character. |
| Strings.SqueezedDropsOnlySeparators | frontend/src/components/Services/Services.tsx:137 | Squeezing removes separators only: without them, the text is unchanged. |
| Strings.SplitRunsKeepsText | frontend/src/components/Services/Services.tsx:137 | Splitting at runs of a white-space character keeps, across the pieces, every character that is not white space, in order. |
| Strings.SplitRunsPieces | frontend/src/components/Services/Services.tsx:137 | The pieces concatenated are the text without its separators. Only the first and the last piece can be empty, because a run of separators opens no empty piece. |
| Strings.SplitInteriorNonEmpty | frontend/src/components/Services/Services.tsx:137 | Splitting a text with no two separators in a row gives no empty piece between two separators. |
| Strings.TrimKeepsVisible | frontend/src/components/Services/Services.tsx:136-138 | Trimming keeps every character that is not white space, in order. |
| Strings.VisibleJoin | frontend/src/components/Services/Services.tsx:140 | Joining with a white-space separator adds no character that is not white space. |
| Strings.ReplaceAllCharGone | frontend/src/components/Chat.tsx:213 | Removing every occurrence of a character leaves none of it. |
| Strings.ReplaceAllAbsent | frontend/src/components/Chat.tsx:213 | Replacing a character that does not occur changes nothing. |
| Strings.ReplaceAllSkipsPlain | backend/routes/aiRoute.js:90 | A prefix that cannot start the pattern passes through unchanged. |
| Strings.CountJoin | frontend/src/components/Services/Services.tsx:140 | Joining n separator-free pieces with `c` puts exactly n - 1 copies of `c` in the text. |
| Seqs.Filter | frontend/src/components/FlowChart.tsx:118-123 | `filter` keeps exactly the elements that pass, in order, with their multiplicities. |
| Seqs.FilterAllKept | frontend/src/components/SchemaEditor.tsx:35 | A filter that keeps everything is the identity. |

## Left out

- The language-model SDKs (OpenAI, Gemini, and Gemini's JSON-constrained model) are not modelled. Each call is a parameter: its reply text, or that it threw. The wording of the generate and merge prompts sent to OpenAI is not modelled.
- AiRoute.Chat: a provider reply whose `message.content` is `null` is not modelled; a `Completion` is either a text or a call that threw. With such a reply, `/chat` on the generate-request message skips the `.trim()` check, records an assistant entry with `null` content and answers 200 with `{response: null}`; on any other message `.trim()` throws and it answers 500. `/generateModel` and `/merge` answer 500 with the not-JSON error, because `.replace` throws inside the parsing `try`. Entries with non-string content would need another entry type throughout the buffer.
- `JSON.parse` and `JSON.stringify` are parameters. The model does not say which texts parse.
- Express, CORS, `server.js`, `res.setHeader` and the rest of the HTTP plumbing are not modelled. An error thrown mid-stream, after the headers have gone out, is not modelled either.
- Request fields that are not strings (a numeric `message`, say) are not modelled. A `chatHistory` is missing, an array of entries, or some other value with a given truthiness.
- The dagre layout (`getLayoutedElements`) is not modelled, and neither is the effect that copies new props into the canvas state (`useNodesState` and its resync).
- reactflow's `addEdge` is a parameter, and the element a context menu is anchored at is an opaque handle.
- `Math.random()` positions and `Date.now()` ids are parameters.
- The 50 ms `setInterval` is modelled as one `Tick` per firing. `isReceivingChunks`, the interval's own clearing and scrolling are not modelled.
- How chunks reach the `onData` callback is not modelled. The hook's `fetchAIResponse` as written takes no callback and returns the formatted reply. The word stream is modelled as Chat.tsx defines it.
- The `fetch` calls are not modelled. Their outcome is a parameter: ok with a diagram, not ok, or thrown.
- Services.LowerChar maps only the ASCII letters; the rest of Unicode case mapping is not modelled.
- frontend/src/components/global/ChatConfig.ts holds another copy of the system prompt with different text. It is not part of this model.
- The presentational components (modals, the how-to-use dialog, the typing indicator, the app shell, the Tailwind and Vite configuration) are not part of this model.
