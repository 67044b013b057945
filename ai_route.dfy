/** The OpenAI route family (backend/routes/aiRoute.js). Every handler works on the
    shared buffer of `ChatHistory`; the provider's reply and `JSON.parse` are inputs:
    `reply` is what the completion call returned (or that it threw), `parse` says
    which texts `JSON.parse` accepts and what it makes of them. */
module AiRoute {
  import opened Wrappers
  import opened Strings
  import opened Json
  import opened Transcript
  import opened Fences
  import opened ChatHistory

  /** The outcome of a provider call: the reply text, or a thrown error. */
  datatype Completion = Completed(text: string) | Unavailable

  datatype Body =
    | ChatReply(response: string)
    | ErrorBody(error: string)
    | MessageBody(message: string)
    | ParsedBody(json: JsonValue)

  datatype Response = Response(status: nat, body: Body)

  /** A handler's effect: its HTTP response, the shared buffer afterwards, and the
      history the provider was shown (`None` when the provider was not called). */
  datatype Outcome = Outcome(response: Response, history: seq<Entry>, shown: Option<seq<Entry>>)

  const Marker: string := "The user pressed the Generate data model button"
  const MessageRequired: string := "Message is required"
  const ChatFailed: string := "Failed to fetch AI response or invalid response format."
  const Cleared: string := "Chat history cleared"
  const NotJson: string := "AI response is not in the expected JSON format."
  const GenerateFailed: string := "Failed to generate data model."
  const MergeFailed: string := "Failed to merge data model."

  /** `!message` is false: the field is present and not the empty string. */
  predicate Present(message: Option<string>) {
    message.Some? && message.value != ""
  }

  /** A reply the free-chat route refuses: JSON-looking text to a message that did
      not start with the marker phrase. */
  predicate FormatViolation(message: string, reply: string) {
    !(Marker <= message) && "{" <= Trim(reply)
  }

  /** `POST /`. */
  function Chat(stored: seq<Entry>, message: Option<string>, reply: Completion): (o: Outcome)
    ensures !Present(message) ==> o == Outcome(Response(400, ErrorBody(MessageRequired)), stored, None)
    ensures Present(message) ==>
      var user := Entry("user", message.value);
      && o.shown == Some(Read(Added(stored, user)))
      && if reply.Completed? && !FormatViolation(message.value, reply.text) then
           o.response == Response(200, ChatReply(reply.text))
           && o.history == Added(Added(stored, user), Entry("assistant", reply.text))
         else
           o.response == Response(500, ErrorBody(ChatFailed)) && o.history == Added(stored, user)
  {
    if !Present(message) then Outcome(Response(400, ErrorBody(MessageRequired)), stored, None)
    else
      var withUser := Added(stored, Entry("user", message.value));
      var shown := Read(withUser);
      match reply
      case Unavailable => Outcome(Response(500, ErrorBody(ChatFailed)), withUser, Some(shown))
      case Completed(text) =>
        if FormatViolation(message.value, text) then
          Outcome(Response(500, ErrorBody(ChatFailed)), withUser, Some(shown))
        else
          Outcome(Response(200, ChatReply(text)), Added(withUser, Entry("assistant", text)), Some(shown))
  }

  /** The response once the provider has answered a structured request: the
      cleaned reply, parsed, or the error for whichever step failed. */
  function ParseReply(reply: Completion, parse: string -> Option<JsonValue>, failure: string): (r: Response)
    ensures r.status == 200 <==> reply.Completed? && parse(Clean(reply.text)).Some?
    ensures r.status != 200 ==> r.status == 500
    ensures reply.Unavailable? ==> r.body == ErrorBody(failure)
    ensures reply.Completed? && parse(Clean(reply.text)).None? ==> r.body == ErrorBody(NotJson)
    ensures r.status == 200 ==> r.body == ParsedBody(parse(Clean(reply.text)).value)
  {
    match reply
    case Unavailable => Response(500, ErrorBody(failure))
    case Completed(text) =>
      match parse(Clean(text))
      case None => Response(500, ErrorBody(NotJson))
      case Some(v) => Response(200, ParsedBody(v))
  }

  /** The shared tail of `POST /generateModel` and `POST /merge`: clean the reply,
      parse it, and only then record the raw reply. */
  function Structured(stored: seq<Entry>, reply: Completion, parse: string -> Option<JsonValue>, failure: string): (o: Outcome)
    ensures o.shown == Some(Read(stored))
    ensures o.response == ParseReply(reply, parse, failure)
    ensures o.response.status == 200 ==> o.history == Added(stored, Entry("assistant", reply.text))
    ensures o.response.status != 200 ==> o.history == stored
  {
    var response := ParseReply(reply, parse, failure);
    var history := if response.status == 200 then Added(stored, Entry("assistant", reply.text)) else stored;
    Outcome(response, history, Some(Read(stored)))
  }

  /** `POST /generateModel`. */
  function Generate(stored: seq<Entry>, reply: Completion, parse: string -> Option<JsonValue>): (o: Outcome)
    ensures o.response.status == 200 <==> reply.Completed? && parse(Clean(reply.text)).Some?
    ensures o.response.status != 200 ==> o.response.status == 500 && o.history == stored
    ensures o.response.status == 200 ==> o.history == Added(stored, Entry("assistant", reply.text))
  {
    Structured(stored, reply, parse, GenerateFailed)
  }

  /** `POST /merge`: `message` only goes into the prompt, so it is never checked. */
  function Merge(stored: seq<Entry>, message: Option<string>, reply: Completion, parse: string -> Option<JsonValue>): (o: Outcome)
    ensures o.response.status != 400
    ensures o.response.status == 200 <==> reply.Completed? && parse(Clean(reply.text)).Some?
    ensures o.response.status != 200 ==> o.response.status == 500 && o.history == stored
    ensures o.response.status == 200 ==> o.history == Added(stored, Entry("assistant", reply.text))
  {
    Structured(stored, reply, parse, MergeFailed)
  }

  /** Two entries added in turn end up as the two newest, and the bound is kept. */
  lemma AddedTwice(stored: seq<Entry>, first: Entry, second: Entry)
    requires |stored| <= MaxChatHistoryLength
    ensures var h := Added(Added(stored, first), second);
      |h| <= MaxChatHistoryLength && |h| >= 2 && h[|h| - 2] == first && h[|h| - 1] == second
  {
    var once := Added(stored, first);
    var h := Added(once, second);
    AddedShape(stored, first);
    AddedShape(once, second);
    if |once| < MaxChatHistoryLength {
      assert h == once + [second];
    } else {
      assert h == [once[0]] + once[2..] + [second];
      assert h[|h| - 2] == once[|once| - 1];
    }
  }

  /** A successful chat turn leaves the user's message and then the reply as the two
      newest entries, and keeps the buffer within its bound. */
  lemma ChatTurnRecorded(stored: seq<Entry>, message: string, reply: string)
    requires |stored| <= MaxChatHistoryLength
    requires message != "" && !FormatViolation(message, reply)
    ensures var h := Chat(stored, Some(message), Completed(reply)).history;
      && |h| <= MaxChatHistoryLength && |h| >= 2
      && h[|h| - 2] == Entry("user", message) && h[|h| - 1] == Entry("assistant", reply)
  {
    var user, assistant := Entry("user", message), Entry("assistant", reply);
    assert Chat(stored, Some(message), Completed(reply)).history == Added(Added(stored, user), assistant);
    AddedTwice(stored, user, assistant);
  }

  /** The provider is shown the system entry, then the buffer, ending with the user's
      message, whatever it then replies. */
  lemma ChatShowsUserMessage(stored: seq<Entry>, message: string, reply: Completion)
    requires message != ""
    ensures var shown := Chat(stored, Some(message), reply).shown;
      shown.Some? && |shown.value| >= 2 && shown.value[0] == SystemEntry()
      && shown.value[|shown.value| - 1] == Entry("user", message)
  {
    AddedShape(stored, Entry("user", message));
  }

  /** A fenced reply whose body parses is accepted as that body. */
  lemma FencedReplyAccepted(stored: seq<Entry>, body: string, parse: string -> Option<JsonValue>)
    requires '`' !in body && parse(body).Some?
    ensures Generate(stored, Completed(JsonFence + body + Fence), parse).response
         == Response(200, ParsedBody(parse(body).value))
  {
    FencedReplyCleansToBody(body);
  }

  /** The routes as they run against the shared buffer, statement by statement. */
  class Router {
    const store: Store

    constructor (store: Store)
      ensures this.store == store
    {
      this.store := store;
    }

    /** `router.post('/')`. */
    method PostChat(message: Option<string>, reply: Completion) returns (res: Response, shown: Option<seq<Entry>>)
      modifies store
      ensures Outcome(res, store.chatHistory, shown) == Chat(old(store.chatHistory), message, reply)
    {
      if !Present(message) {
        return Response(400, ErrorBody(MessageRequired)), None;
      }
      store.Add(Entry("user", message.value));
      var messages := store.Get();
      shown := Some(messages);
      if reply.Unavailable? {
        return Response(500, ErrorBody(ChatFailed)), shown;
      }
      var aiResponse := reply.text;
      if !(Marker <= message.value) && "{" <= Trim(aiResponse) {
        return Response(500, ErrorBody(ChatFailed)), shown;
      }
      store.Add(Entry("assistant", aiResponse));
      res := Response(200, ChatReply(aiResponse));
    }

    /** `router.post('/clear')`. */
    method PostClear() returns (res: Response)
      modifies store
      ensures res == Response(200, MessageBody(Cleared))
      ensures store.chatHistory == [] && store.Get() == [SystemEntry()]
    {
      store.Clear();
      res := Response(200, MessageBody(Cleared));
    }

    /** The steps `/generateModel` and `/merge` share once the reply is in. */
    method RecordStructured(reply: Completion, parse: string -> Option<JsonValue>, failure: string) returns (res: Response)
      modifies store
      ensures Outcome(res, store.chatHistory, Some(Read(old(store.chatHistory))))
           == Structured(old(store.chatHistory), reply, parse, failure)
    {
      if reply.Unavailable? {
        return Response(500, ErrorBody(failure));
      }
      var aiResponse := reply.text;
      var cleanedResponse := Clean(aiResponse);
      var parsedResponse := parse(cleanedResponse);
      if parsedResponse.None? {
        return Response(500, ErrorBody(NotJson));
      }
      store.Add(Entry("assistant", aiResponse));
      res := Response(200, ParsedBody(parsedResponse.value));
    }

    /** `router.post('/generateModel')`. */
    method PostGenerateModel(reply: Completion, parse: string -> Option<JsonValue>) returns (res: Response)
      modifies store
      ensures Outcome(res, store.chatHistory, Some(Read(old(store.chatHistory))))
           == Generate(old(store.chatHistory), reply, parse)
    {
      res := RecordStructured(reply, parse, GenerateFailed);
    }

    /** `router.post('/merge')`. */
    method PostMerge(message: Option<string>, reply: Completion, parse: string -> Option<JsonValue>) returns (res: Response)
      modifies store
      ensures Outcome(res, store.chatHistory, Some(Read(old(store.chatHistory))))
           == Merge(old(store.chatHistory), message, reply, parse)
    {
      res := RecordStructured(reply, parse, MergeFailed);
    }
  }
}
