/** The chat panel (frontend/src/components/Chat.tsx): the transcript on screen, the
    submit and clear handlers, the word queue that replays a streamed reply, and the
    markup applied to a message before it is shown. `Date.now()` ids are supplied by
    the caller; the `setInterval` timer becomes one `Tick` call per firing. */
module Chat {
  import opened Wrappers
  import opened Strings
  import Services

  datatype Speaker = User | Assistant

  /** A message on screen. */
  datatype ChatMessage = ChatMessage(id: int, content: string, role: Speaker)

  const ErrorText: string := "Error: An unexpected error occurred. Please try again."

  // ----- The transcript updaters -----

  /** The `setMessages` updater of a replay tick: rewrite the last message when it is
      the assistant's, otherwise start an assistant message with id `freshId`. */
  function Upserted(prev: seq<ChatMessage>, content: string, freshId: int): (r: seq<ChatMessage>)
    ensures |r| >= 1 && r[|r| - 1].role == Assistant && r[|r| - 1].content == content
    ensures |prev| > 0 && prev[|prev| - 1].role == Assistant ==>
      |r| == |prev| && r[..|prev| - 1] == prev[..|prev| - 1] && r[|r| - 1].id == prev[|prev| - 1].id
    ensures !(|prev| > 0 && prev[|prev| - 1].role == Assistant) ==>
      r == prev + [ChatMessage(freshId, content, Assistant)]
  {
    if |prev| > 0 && prev[|prev| - 1].role == Assistant then
      var last := prev[|prev| - 1];
      prev[..|prev| - 1] + [last.(content := content)]
    else
      prev + [ChatMessage(freshId, content, Assistant)]
  }

  /** Replaying grows one assistant message: a later tick overwrites what an earlier
      one wrote, keeping the id the first one gave it. */
  lemma UpsertOverwrites(prev: seq<ChatMessage>, first: string, second: string, id1: int, id2: int)
    ensures Upserted(Upserted(prev, first, id1), second, id2) == Upserted(prev, second, id1)
  {
    var once := Upserted(prev, first, id1);
    assert once[..|once| - 1] == if |prev| > 0 && prev[|prev| - 1].role == Assistant then prev[..|prev| - 1] else prev;
  }

  // ----- The word queue -----

  /** What `streamedContent` becomes after `words` are shifted off in order. */
  function Spaced(words: seq<string>): (r: string)
    decreases |words|
  {
    if words == [] then "" else words[0] + " " + Spaced(words[1..])
  }

  lemma {:induction false} SpacedAppend(a: seq<string>, b: seq<string>)
    ensures Spaced(a + b) == Spaced(a) + Spaced(b)
    decreases |a|
  {
    if a == [] {
      assert a + b == b;
    } else {
      SpacedAppend(a[1..], b);
      assert (a + b)[1..] == a[1..] + b;
    }
  }

  lemma {:induction false} SpacedIsJoin(words: seq<string>)
    requires |words| >= 1
    ensures Spaced(words) == Join(words, " ") + " "
    decreases |words|
  {
    if |words| == 1 {
      assert Spaced(words[1..]) == "";
    } else {
      SpacedIsJoin(words[1..]);
    }
  }

  /** A chunk split at spaces and replayed word by word comes back as the chunk
      followed by one space. */
  lemma ReplayedChunk(chunk: string)
    ensures Spaced(Split(chunk, ' ')) == chunk + " "
  {
    SpacedIsJoin(Split(chunk, ' '));
    JoinSplit(chunk, ' ');
    assert " " == [' '];
  }

  /** The words of each chunk, in arrival order. */
  function WordsOf(chunks: seq<string>): seq<string>
    decreases |chunks|
  {
    if chunks == [] then [] else WordsOf(chunks[..|chunks| - 1]) + Split(chunks[|chunks| - 1], ' ')
  }

  /** Chunks replayed in full read as the chunks in arrival order, each followed by a space. */
  lemma {:induction false} ReplayPreservesOrder(chunks: seq<string>)
    ensures Spaced(WordsOf(chunks)) == Spaced(chunks)
    decreases |chunks|
  {
    if chunks != [] {
      var init := chunks[..|chunks| - 1];
      var last := chunks[|chunks| - 1];
      ReplayPreservesOrder(init);
      SpacedAppend(WordsOf(init), Split(last, ' '));
      ReplayedChunk(last);
      SpacedAppend(init, [last]);
      assert init + [last] == chunks;
      assert Spaced([last]) == last + " " by {
        assert [last][1..] == [];
      }
    }
  }

  /** `wordQueue` and `streamedContent` of one submit. The ghost `received` holds every
      word pushed so far and `shown` every word shifted off. */
  class WordStream {
    var wordQueue: seq<string>
    var streamedContent: string
    ghost var received: seq<string>
    ghost var shown: seq<string>

    ghost predicate Valid()
      reads this
    {
      received == shown + wordQueue && streamedContent == Spaced(shown)
    }

    constructor ()
      ensures Valid() && wordQueue == [] && streamedContent == "" && received == []
    {
      wordQueue := [];
      streamedContent := "";
      received := [];
      shown := [];
    }

    /** The `onData` callback: `wordQueue.push(...chunk.split(" "))`. */
    method OnChunk(chunk: string)
      requires Valid()
      modifies this
      ensures Valid()
      ensures wordQueue == old(wordQueue) + Split(chunk, ' ') && received == old(received) + Split(chunk, ' ')
      ensures streamedContent == old(streamedContent) && shown == old(shown)
    {
      wordQueue := wordQueue + Split(chunk, ' ');
      received := received + Split(chunk, ' ');
    }

    /** One firing of the interval: shift a word, if any, onto `streamedContent`. */
    method Tick() returns (shifted: bool)
      requires Valid()
      modifies this
      ensures Valid() && received == old(received)
      ensures shifted <==> old(wordQueue) != []
      ensures shifted ==> wordQueue == old(wordQueue)[1..] && streamedContent == old(streamedContent) + old(wordQueue)[0] + " "
      ensures !shifted ==> wordQueue == old(wordQueue) && streamedContent == old(streamedContent)
    {
      if wordQueue == [] {
        return false;
      }
      var word := wordQueue[0];
      SpacedAppend(shown, [word]);
      assert Spaced([word]) == word + " " by {
        assert [word][1..] == [];
      }
      streamedContent := streamedContent + word + " ";
      shown := shown + [word];
      wordQueue := wordQueue[1..];
      shifted := true;
    }
  }

  /** What happens to one submit's word queue: a chunk reaches `onData`, or the
      50 ms interval fires. */
  datatype StreamEvent = ChunkArrived(chunk: string) | IntervalFired

  /** The chunks among `events`, in arrival order. */
  function ArrivedChunks(events: seq<StreamEvent>): (chunks: seq<string>)
    ensures |chunks| <= |events|
    ensures forall c :: c in chunks <==> ChunkArrived(c) in events
    decreases |events|
  {
    if events == [] then []
    else
      var own := match events[|events| - 1]
        case ChunkArrived(chunk) => [chunk]
        case IntervalFired => [];
      ArrivedChunks(events[..|events| - 1]) + own
  }

  /** One submit's stream: the chunks and timer firings in the order they happen, then
      the interval keeps firing until the queue is empty. Whatever the interleaving,
      the reply on screen is every chunk in arrival order, each followed by a space. */
  method Replay(events: seq<StreamEvent>) returns (streamedContent: string)
    ensures streamedContent == Spaced(ArrivedChunks(events))
  {
    var stream := new WordStream();
    var i := 0;
    while i < |events|
      invariant 0 <= i <= |events|
      invariant stream.Valid() && stream.received == WordsOf(ArrivedChunks(events[..i]))
    {
      var before := ArrivedChunks(events[..i]);
      assert events[..i + 1][..i] == events[..i];
      match events[i] {
        case ChunkArrived(chunk) =>
          assert ArrivedChunks(events[..i + 1]) == before + [chunk];
          assert (before + [chunk])[..|before|] == before;
          stream.OnChunk(chunk);
        case IntervalFired =>
          assert ArrivedChunks(events[..i + 1]) == before;
          var _ := stream.Tick();
      }
      i := i + 1;
    }
    assert events[..i] == events;
    while stream.wordQueue != []
      invariant stream.Valid() && stream.received == WordsOf(ArrivedChunks(events))
      decreases |stream.wordQueue|
    {
      var _ := stream.Tick();
    }
    assert stream.shown + [] == stream.shown;
    ReplayPreservesOrder(ArrivedChunks(events));
    streamedContent := stream.streamedContent;
  }

  // ----- The panel's state -----

  class ChatPanel {
    var messages: seq<ChatMessage>
    var input: string
    var chatLoading: bool

    constructor ()
      ensures messages == [] && input == "" && !chatLoading
    {
      messages := [];
      input := "";
      chatLoading := false;
    }

    /** The text area's `onChange`. */
    method SetInput(value: string)
      modifies this
      ensures input == value && messages == old(messages) && chatLoading == old(chatLoading)
    {
      input := value;
    }

    /** The synchronous part of `handleSubmit`: blank input does nothing; otherwise the
        input, untrimmed, becomes a user message and the box is emptied. */
    method HandleSubmit(freshId: int) returns (sent: Option<string>)
      modifies this
      ensures Trim(old(input)) == "" ==>
        sent == None && messages == old(messages) && input == old(input) && chatLoading == old(chatLoading)
      ensures Trim(old(input)) != "" ==>
        && sent == Some(old(input))
        && messages == old(messages) + [ChatMessage(freshId, old(input), User)]
        && input == "" && chatLoading
    {
      if Trim(input) == "" {
        return None;
      }
      sent := Some(input);
      messages := messages + [ChatMessage(freshId, input, User)];
      input := "";
      chatLoading := true;
    }

    /** A replay tick's `setMessages` call. */
    method ShowStreamed(streamedContent: string, freshId: int)
      modifies this
      ensures messages == Upserted(old(messages), streamedContent, freshId)
      ensures input == old(input) && chatLoading == old(chatLoading)
    {
      messages := Upserted(messages, streamedContent, freshId);
    }

    /** The `catch` of `handleSubmit`: one assistant error message, and loading ends. */
    method FetchFailed(freshId: int)
      modifies this
      ensures messages == old(messages) + [ChatMessage(freshId, ErrorText, Assistant)]
      ensures !chatLoading && input == old(input)
    {
      messages := messages + [ChatMessage(freshId, ErrorText, Assistant)];
      chatLoading := false;
    }

    /** `handleClear()`: the diagram is reset first, whatever the server then answers;
        the transcript is emptied only when the clear request succeeded. */
    method HandleClear(services: Services.DataModelServices, clearOk: bool)
      modifies this, services
      ensures services.nodes == [] && services.edges == [] && services.manualNodes == [] && services.isFirstAdd
      ensures services.aiNodes == old(services.aiNodes) && services.loading == old(services.loading)
      ensures clearOk ==> messages == []
      ensures !clearOk ==> messages == old(messages)
      ensures input == old(input) && chatLoading == old(chatLoading)
    {
      services.ResetNodesAndEdges();
      if clearOk {
        messages := [];
      }
    }
  }
}
