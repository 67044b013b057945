/** The Gemini route family (backend/routes/googleAiRoute.js). These handlers keep
    no conversation of their own: the client sends it as `chatHistory` with every
    request. The two models are inputs: `model` answers a prompt with a stream of
    chunks (or refuses it), `modelJson` and `model` answer a prompt with text. */
module GoogleAiRoute {
  import opened Wrappers
  import opened Strings
  import opened Json
  import opened Transcript
  import opened Fences
  import opened AiRoute

  /** `req.body.chatHistory` as the request carries it: missing (or `null`), an
      array of entries, or some other JSON value, which is truthy or not. */
  datatype HistoryField = Missing | Entries(entries: seq<Entry>) | Other(truthy: bool)

  /** `!!chatHistory`: every array is truthy, even an empty one. */
  predicate Truthy(h: HistoryField) {
    h.Entries? || (h.Other? && h.truthy)
  }

  /** One element of `result.stream`; `text` is `None` when the chunk has no `text` method. */
  datatype Chunk = Chunk(text: Option<string>)

  /** What `model.generateContentStream(prompt)` produced: a stream, or a thrown error. */
  datatype StreamResult = Streamed(chunks: seq<Chunk>) | Refused

  /** A reply is either a JSON response or a chunked `text/plain` body, given as the
      pieces `res.write` sent. */
  datatype Reply = JsonReply(response: Response) | TextStream(written: seq<string>)

  const ChatHistoryRequired: string := "Message and chat history are required"
  const HistoryRequired: string := "Chat history is required"

  /** The prompt of `POST /`. */
  function ChatPrompt(history: seq<Entry>, message: string): string {
    "\n      Chat History:\n      " + Render(history) + "\n      User: " + message + "\n    "
  }

  /** The instructions of `POST /googleGenerate`, up to where the history is spliced in. */
  const GenerateHead: string :=
        "\n"
      + "      The user pressed the Generate data model button. Generate a JSON object representing nodes and edges for a data model. Only respond in JSON format and nothing else. \n"
      + "      Example JSON response:\n"
      + "      {\n"
      + "        \"nodes\": [\n"
      + "          {\n"
      + "            \"id\": \"example_users\",\n"
      + "            \"type\": \"custom\",\n"
      + "            \"data\": {\n"
      + "              \"label\": \"Example_Users\",\n"
      + "              \"schema\": [\n"
      + "                { \"name\": \"id\", \"type\": \"UUID\", \"constraints\": \"PRIMARY KEY\" },\n"
      + "                { \"name\": \"name\", \"type\": \"VARCHAR(255)\", \"constraints\": \"NOT NULL REFERENCES Users(id) ON DELETE CASCADE,\" },\n"
      + "                { \"name\": \"email\", \"type\": \"VARCHAR(255)\", \"constraints\": \"UNIQUE NOT NULL\" },\n"
      + "                { \"name\": \"created_at\", \"type\": \"TIMESTAMP\", \"constraints\": \"DEFAULT CURRENT_TIMESTAMP\" }\n"
      + "              ]\n"
      + "            },\n"
      + "            \"position\": { \"x\": 100, \"y\": 50 }\n"
      + "          }\n"
      + "        ],\n"
      + "        \"edges\": [\n"
      + "          { \"id\": \"e1\", \"source\": \"users\", \"target\": \"orders\", \"label\": \"user_id\" }\n"
      + "        ]\n"
      + "      }\n"
      + "\n"
      + "      Chat History (!IMPORTANT! - Last messages being the most recent and Respond the schema part in a VALID SQL FORMAT,\n"
      + "      assume the schema is then converted to a string for the user to then copy and paste into their database):\n"
      + "      "

  /** The prompt of `POST /googleGenerate`. */
  function GeneratePrompt(history: seq<Entry>): string {
    GenerateHead + Render(history) + "\n     "
  }

  /** The instructions of `POST /merge`, up to where the message is spliced in. */
  const MergeHead: string :=
        "\n"
      + "      Merge the user's new table/tables into the existing data model and try to connect it to the current model. The table they added might not work and your job is to connect it and fit it into the current model. Only respond in JSON format and nothing else.\n"
      + "           Example JSON response:\n"
      + "      {\n"
      + "        \"nodes\": [\n"
      + "          {\n"
      + "            \"id\": \"example_users\",\n"
      + "            \"type\": \"custom\",\n"
      + "            \"data\": {\n"
      + "              \"label\": \"Example_Users\",\n"
      + "              \"schema\": [\n"
      + "                { \"name\": \"id\", \"type\": \"UUID\", \"constraints\": \"PRIMARY KEY\" },\n"
      + "                { \"name\": \"name\", \"type\": \"VARCHAR(255)\", \"constraints\": \"NOT NULL\" },\n"
      + "                { \"name\": \"email\", \"type\": \"VARCHAR(255)\", \"constraints\": \"UNIQUE NOT NULL\" },\n"
      + "                { \"name\": \"created_at\", \"type\": \"TIMESTAMP\", \"constraints\": \"DEFAULT CURRENT_TIMESTAMP\" }\n"
      + "              ]\n"
      + "            },\n"
      + "            \"position\": { \"x\": 100, \"y\": 50 }\n"
      + "          }\n"
      + "        ],\n"
      + "        \"edges\": [\n"
      + "          { \"id\": \"e1\", \"source\": \"users\", \"target\": \"orders\", \"label\": \"user_id\" }\n"
      + "        ]\n"
      + "      }\n"
      + "      User's input/new table they added:\n"
      + "      "

  /** What `POST /merge` puts between the message and the history. */
  const MergeMiddle: string :=
        "\n"
      + "      Chat History (!IMPORTANT! - Last messages being the most recent):\n"
      + "      "

  /** The prompt of `POST /merge`. */
  function MergePrompt(message: string, history: seq<Entry>): string {
    MergeHead + message + MergeMiddle + Render(history) + "\n    "
  }

  /** `p.startsWith(prefix)`. */
  predicate StartsWith(p: string, prefix: string) {
    |prefix| <= |p| && p[..|prefix|] == prefix
  }

  /** `p.endsWith(suffix)`. */
  predicate EndsWith(p: string, suffix: string) {
    |suffix| <= |p| && p[|p| - |suffix|..] == suffix
  }

  /** The generate prompt opens with its instructions and closes with the rendered
      history. */
  lemma GeneratePromptFrames(history: seq<Entry>)
    ensures StartsWith(GeneratePrompt(history), GenerateHead)
    ensures EndsWith(GeneratePrompt(history), Render(history) + "\n     ")
  {
    Between(GenerateHead, Render(history), "\n     ");
  }

  /** The merge prompt opens with its instructions followed by the user's message, and
      closes with the rendered history. */
  lemma MergePromptFrames(message: string, history: seq<Entry>)
    ensures StartsWith(MergePrompt(message, history), MergeHead + message)
    ensures EndsWith(MergePrompt(message, history), Render(history) + "\n    ")
  {
    Enclosed(MergeHead + message, MergeMiddle, Render(history), "\n    ");
  }

  lemma Between(a: string, c: string, d: string)
    ensures StartsWith(a + c + d, a) && EndsWith(a + c + d, c + d)
  {
    assert a + c + d == a + (c + d);
  }

  lemma Enclosed(a: string, b: string, c: string, d: string)
    ensures StartsWith(a + b + c + d, a) && EndsWith(a + b + c + d, c + d)
  {
    var p := a + b + c + d;
    assert p == a + (b + (c + d));
    assert p == (a + b) + (c + d);
  }

  /** Every line of the prompt of `POST /` is its own: after the heading, the first
      rendered entry carries the template's indentation, the others start at the
      margin, and the user's message comes last. */
  lemma ChatPromptLines(history: seq<Entry>, message: string)
    requires |history| >= 1
    requires forall e :: e in history ==> SingleLine(e)
    requires '\n' !in message
    ensures var lines := RenderedLines(history);
      Split(ChatPrompt(history, message), '\n')
        == ["", "      Chat History:", "      " + lines[0]] + lines[1..] + ["      User: " + message, "    "]
  {
    var lines := RenderedLines(history);
    var body := "      " + Render(history);
    var user := "      User: " + message;
    NoBreak(message);
    ChatPromptPieces(Render(history), message);
    IndentedLines(history);
    FramedLines("      Chat History:", body, user, "    ", ["      " + lines[0]] + lines[1..], '\n');
    var framed := [] + ['\n'] + ("      Chat History:" + ['\n'] + (body + ['\n'] + (user + ['\n'] + "    ")));
    assert ChatPrompt(history, message) == framed;
    Regroup("", "      Chat History:", "      " + lines[0], lines[1..], user, "    ");
  }

  lemma Regroup(a: string, b: string, c: string, middle: seq<string>, d: string, e: string)
    ensures [a] + ([b] + (([c] + middle) + [d, e])) == [a, b, c] + middle + [d, e]
  {
  }

  lemma NoBreak(message: string)
    requires '\n' !in message
    ensures '\n' !in "      Chat History:" && '\n' !in "      User: " + message && '\n' !in "    "
  {
  }

  lemma ChatPromptPieces(rendered: string, message: string)
    ensures "\n      Chat History:\n      " + rendered + "\n      User: " + message + "\n    "
         == [] + ['\n'] + ("      Chat History:" + ['\n'] + (("      " + rendered) + ['\n'] + (("      User: " + message) + ['\n'] + "    ")))
  {
    assert "\n      Chat History:\n      " == ['\n'] + "      Chat History:" + ['\n'] + "      ";
    assert "\n      User: " == ['\n'] + "      User: ";
    assert "\n    " == ['\n'] + "    ";
    Reassociated("      Chat History:", "      ", rendered, "      User: ", message, "    ", '\n');
  }

  lemma Reassociated(head: string, indent: string, rendered: string, tag: string, message: string, last: string, c: char)
    ensures ([c] + head + [c] + indent) + rendered + ([c] + tag) + message + ([c] + last)
         == [] + [c] + (head + [c] + ((indent + rendered) + [c] + ((tag + message) + [c] + last)))
  {
  }

  /** A text framed by an empty first line, a heading, and two closing lines splits
      into those lines around the lines of its body. */
  lemma FramedLines(head: string, body: string, user: string, last: string, bodyLines: seq<string>, c: char)
    requires c !in head && c !in user && c !in last
    requires Split(body, c) == bodyLines
    ensures Split([] + [c] + (head + [c] + (body + [c] + (user + [c] + last))), c)
         == [""] + ([head] + (bodyLines + [user, last]))
  {
    var tail := user + [c] + last;
    SplitLead(user, last, c);
    SplitWhole(last, c);
    assert Split(tail, c) == [user, last];
    SplitConcat(body, tail, c);
    var rest := body + [c] + tail;
    assert Split(rest, c) == bodyLines + [user, last];
    SplitLead(head, rest, c);
    SplitLead([], head + [c] + rest, c);
  }

  /** The rendered history behind the template's indentation, line by line. */
  lemma IndentedLines(history: seq<Entry>)
    requires |history| >= 1
    requires forall e :: e in history ==> SingleLine(e)
    ensures var lines := RenderedLines(history);
      Split("      " + Render(history), '\n') == ["      " + lines[0]] + lines[1..]
  {
    RenderLineByLine(history);
    SplitPrefix("      ", Render(history), '\n');
  }

  /** The texts of the chunks that have one, in stream order. */
  function Texts(chunks: seq<Chunk>): (written: seq<string>)
    ensures |written| <= |chunks|
    ensures forall t :: t in written <==> Some(t) in ChunkTexts(chunks)
  {
    if chunks == [] then []
    else
      var last := chunks[|chunks| - 1];
      assert ChunkTexts(chunks) == ChunkTexts(chunks[..|chunks| - 1]) + [last.text];
      Texts(chunks[..|chunks| - 1]) + (if last.text.Some? then [last.text.value] else [])
  }

  /** One chunk writes its text, if it has one, and nothing else. */
  lemma TextsOfOne(k: Chunk)
    ensures Texts([k]) == if k.text.Some? then [k.text.value] else []
  {
    assert [k][..0] == [];
  }

  /** The texts of two stretches of the stream, one after the other: the order of
      arrival is kept and nothing is dropped or repeated. */
  lemma {:induction false} TextsAppend(a: seq<Chunk>, b: seq<Chunk>)
    ensures Texts(a + b) == Texts(a) + Texts(b)
    decreases |b|
  {
    if b == [] {
      assert a + b == a;
    } else {
      var front := b[..|b| - 1];
      var last := b[|b| - 1];
      var own := if last.text.Some? then [last.text.value] else [];
      assert (a + b)[..|a + b| - 1] == a + front && (a + b)[|a + b| - 1] == last;
      TextsAppend(a, front);
      assert Texts(a + b) == (Texts(a) + Texts(front)) + own;
      assert Texts(b) == Texts(front) + own;
    }
  }

  function ChunkTexts(chunks: seq<Chunk>): (r: seq<Option<string>>)
    ensures |r| == |chunks| && forall i :: 0 <= i < |chunks| ==> r[i] == chunks[i].text
  {
    seq(|chunks|, i requires 0 <= i < |chunks| => chunks[i].text)
  }

  /** The `for await` loop of `POST /`: every chunk with text is written out as it
      arrives, and `aiResponse` accumulates exactly what was written. */
  method Relay(chunks: seq<Chunk>) returns (written: seq<string>, aiResponse: string)
    ensures written == Texts(chunks)
    ensures aiResponse == Join(written, "")
  {
    written := [];
    aiResponse := "";
    var i := 0;
    while i < |chunks|
      invariant 0 <= i <= |chunks|
      invariant written == Texts(chunks[..i])
      invariant aiResponse == Join(written, "")
    {
      if chunks[i].text.Some? {
        var textChunk := chunks[i].text.value;
        JoinSnoc(written, textChunk, "");
        aiResponse := aiResponse + textChunk;
        written := written + [textChunk];
      }
      assert chunks[..i + 1][..i] == chunks[..i];
      i := i + 1;
    }
    assert chunks[..|chunks|] == chunks;
  }

  /** `router.post("/")`. */
  method PostChat(message: Option<string>, chatHistory: HistoryField, model: string -> StreamResult) returns (reply: Reply)
    ensures !Present(message) || !chatHistory.Entries? ==>
      reply == JsonReply(Response(400, ErrorBody(ChatHistoryRequired)))
    ensures Present(message) && chatHistory.Entries? ==>
      var result := model(ChatPrompt(chatHistory.entries, message.value));
      && (result.Refused? ==> reply == JsonReply(Response(500, ErrorBody(ChatFailed))))
      && (result.Streamed? ==> reply == TextStream(Texts(result.chunks)))
  {
    if !Present(message) || !chatHistory.Entries? {
      return JsonReply(Response(400, ErrorBody(ChatHistoryRequired)));
    }
    var prompt := ChatPrompt(chatHistory.entries, message.value);
    var result := model(prompt);
    if result.Refused? {
      return JsonReply(Response(500, ErrorBody(ChatFailed)));
    }
    var written, aiResponse := Relay(result.chunks);
    reply := TextStream(written);
  }

  /** `router.post("/clear")`: answers as the other route family does, but there is
      no buffer here to clear. */
  function ClearReply(): (r: Response)
    ensures r.status == 200 && r.body == MessageBody(Cleared)
  {
    Response(200, MessageBody(Cleared))
  }

  /** `router.post("/googleGenerate")`. A truthy `chatHistory` that is not an array
      passes the guard and then fails on `.map`, inside the handler's `try`. */
  function GoogleGenerate(chatHistory: HistoryField, modelJson: string -> Completion, parse: string -> Option<JsonValue>): (r: Response)
    ensures !Truthy(chatHistory) ==> r == Response(400, ErrorBody(HistoryRequired))
    ensures chatHistory.Other? && chatHistory.truthy ==> r == Response(500, ErrorBody(GenerateFailed))
    ensures chatHistory.Entries? ==> r == ParseReply(modelJson(GeneratePrompt(chatHistory.entries)), parse, GenerateFailed)
    ensures r.status == 200 <==>
      chatHistory.Entries? && var reply := modelJson(GeneratePrompt(chatHistory.entries));
      reply.Completed? && parse(Clean(reply.text)).Some?
  {
    match chatHistory
    case Missing => Response(400, ErrorBody(HistoryRequired))
    case Other(truthy) =>
      if truthy then Response(500, ErrorBody(GenerateFailed)) else Response(400, ErrorBody(HistoryRequired))
    case Entries(history) => ParseReply(modelJson(GeneratePrompt(history)), parse, GenerateFailed)
  }

  /** `router.post("/merge")`: the guard asks for a truthy `chatHistory`, not an array. */
  function MergeModel(message: Option<string>, chatHistory: HistoryField, model: string -> Completion, parse: string -> Option<JsonValue>): (r: Response)
    ensures !Present(message) || !Truthy(chatHistory) ==> r == Response(400, ErrorBody(ChatHistoryRequired))
    ensures Present(message) && chatHistory.Other? && chatHistory.truthy ==> r == Response(500, ErrorBody(MergeFailed))
    ensures Present(message) && chatHistory.Entries? ==>
      r == ParseReply(model(MergePrompt(message.value, chatHistory.entries)), parse, MergeFailed)
    ensures r.status == 200 <==>
      Present(message) && chatHistory.Entries? && var reply := model(MergePrompt(message.value, chatHistory.entries));
      reply.Completed? && parse(Clean(reply.text)).Some?
  {
    if !Present(message) || !Truthy(chatHistory) then Response(400, ErrorBody(ChatHistoryRequired))
    else if chatHistory.Other? then Response(500, ErrorBody(MergeFailed))
    else ParseReply(model(MergePrompt(message.value, chatHistory.entries)), parse, MergeFailed)
  }

  /** The two route families agree on a reply: for the same provider text, `/googleGenerate`
      given a history and the OpenAI `/generateModel` answer alike. */
  lemma GenerateRoutesAgree(history: seq<Entry>, stored: seq<Entry>, reply: Completion, parse: string -> Option<JsonValue>)
    ensures GoogleGenerate(Entries(history), _ => reply, parse) == Generate(stored, reply, parse).response
  {
  }
}
