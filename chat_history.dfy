/** The backend's single, process-wide conversation buffer (backend/Services/chatHistory.js):
    at most ten stored entries, the first one kept and the oldest of the others dropped
    on overflow, and the system prompt added in front on every read. */
module ChatHistory {
  import opened Strings
  import opened Transcript

  const MaxChatHistoryLength: nat := 10

  /** The entry a read puts in front of the stored ones: `systemMessage.trim()`,
      which is the prompt's body (`SystemPromptTrimmed`). */
  function SystemEntry(): Entry {
    Entry("System", SystemPromptBody)
  }

  /** The buffer that holds `all`, every entry added since the last clear, in order:
      all of them while they fit, otherwise the very first followed by the latest nine. */
  function Window(all: seq<Entry>): seq<Entry> {
    if |all| > MaxChatHistoryLength then [all[0]] + all[|all| - (MaxChatHistoryLength - 1)..] else all
  }

  /** The window is the whole history while it fits, and otherwise exactly ten entries:
      the first one added and the latest nine. */
  lemma WindowShape(all: seq<Entry>)
    ensures |all| <= MaxChatHistoryLength ==> Window(all) == all
    ensures |all| > MaxChatHistoryLength ==>
      |Window(all)| == MaxChatHistoryLength && Window(all)[0] == all[0]
      && Window(all)[1..] == all[|all| - (MaxChatHistoryLength - 1)..]
  {
    if |all| > MaxChatHistoryLength {
      var w := Window(all);
      assert w == [all[0]] + all[|all| - (MaxChatHistoryLength - 1)..];
    }
  }

  /** The buffer after `addToChatHistory(entry)`. */
  function Added(stored: seq<Entry>, entry: Entry): seq<Entry> {
    var grown := stored + [entry];
    if |grown| > MaxChatHistoryLength then [grown[0]] + grown[|grown| - (MaxChatHistoryLength - 1)..] else grown
  }

  /** An added entry is the newest one and the bound is kept: below it the entry is
      appended, at it the entry after the first is dropped to make room. */
  lemma AddedShape(stored: seq<Entry>, entry: Entry)
    ensures var r := Added(stored, entry);
      && (|stored| <= MaxChatHistoryLength ==> |r| <= MaxChatHistoryLength)
      && |r| >= 1 && r[|r| - 1] == entry
      && (|stored| < MaxChatHistoryLength ==> r == stored + [entry])
      && (|stored| == MaxChatHistoryLength ==> r == [stored[0]] + stored[2..] + [entry])
  {
  }

  /** `chatHistory[0] !== systemMessage`: a stored entry is an object and the prompt a
      string, and strict equality never holds between an object and a string. */
  function StrictlyEqualsText(stored: Entry, text: string): bool {
    false
  }

  /** What `getChatHistory()` returns for the buffer `stored`. */
  function Read(stored: seq<Entry>): (r: seq<Entry>)
    ensures r == [SystemEntry()] + stored
  {
    if |stored| == 0 || !StrictlyEqualsText(stored[0], SystemPrompt) then [SystemEntry()] + stored else stored
  }

  /** The buffer after adding each of `entries` in turn. */
  function AddedAll(stored: seq<Entry>, entries: seq<Entry>): seq<Entry>
    decreases |entries|
  {
    if entries == [] then stored
    else Added(AddedAll(stored, entries[..|entries| - 1]), entries[|entries| - 1])
  }

  /** Adding to the window of a history is the window of the longer history. */
  lemma WindowStep(all: seq<Entry>, entry: Entry)
    ensures Added(Window(all), entry) == Window(all + [entry])
  {
    var grown := all + [entry];
    if |all| > MaxChatHistoryLength {
      var w := Window(all);
      assert (w + [entry])[1..] == w[1..] + [entry];
      assert grown[|grown| - (MaxChatHistoryLength - 1)..] == all[|all| - (MaxChatHistoryLength - 2)..] + [entry];
      assert w[1..][1..] == all[|all| - (MaxChatHistoryLength - 2)..];
    }
  }

  /** Whatever sequence of entries is added to a buffer within its bound, the buffer
      ends up holding the window of the whole history: its first entry followed by the
      latest nine once more than ten entries have been added. */
  lemma {:induction false} AddedAllIsWindow(stored: seq<Entry>, entries: seq<Entry>)
    requires |stored| <= MaxChatHistoryLength
    ensures AddedAll(stored, entries) == Window(stored + entries)
    decreases |entries|
  {
    if entries == [] {
      assert stored + entries == stored;
    } else {
      var init := entries[..|entries| - 1];
      var last := entries[|entries| - 1];
      AddedAllIsWindow(stored, init);
      WindowStep(stored + init, last);
      assert stored + init + [last] == stored + entries;
    }
  }

  /** The scenario of one system turn and eleven more added to an empty buffer: ten
      are kept, the first of them and then the last nine of the rest, in order. */
  lemma TwelveAdded(entries: seq<Entry>)
    requires |entries| == 12
    ensures var kept := AddedAll([], entries);
      |kept| == 10 && kept[0] == entries[0] && kept[1..] == entries[3..]
  {
    AddedAllIsWindow([], entries);
    assert [] + entries == entries;
    WindowShape(entries);
  }

  /** The module-level `chatHistory` variable. */
  class Store {
    var chatHistory: seq<Entry>

    predicate Valid()
      reads this
    {
      |chatHistory| <= MaxChatHistoryLength
    }

    constructor ()
      ensures Valid() && chatHistory == []
    {
      chatHistory := [];
    }

    /** `getChatHistory()`: reads the buffer and changes nothing. */
    function Get(): (r: seq<Entry>)
      reads this
      ensures r == Read(chatHistory)
      ensures |r| == |chatHistory| + 1 && r[0] == SystemEntry() && r[1..] == chatHistory
    {
      Read(chatHistory)
    }

    /** `addToChatHistory(entry)`: push, then cut back to the first entry and the last nine. */
    method Add(entry: Entry)
      modifies this
      ensures chatHistory == Added(old(chatHistory), entry)
      ensures old(Valid()) ==> Valid()
    {
      AddedShape(chatHistory, entry);
      chatHistory := chatHistory + [entry];
      if |chatHistory| > MaxChatHistoryLength {
        chatHistory := [chatHistory[0]] + chatHistory[|chatHistory| - (MaxChatHistoryLength - 1)..];
      }
    }

    /** `clearChatHistory()`: afterwards a read returns the system entry alone. */
    method Clear()
      modifies this
      ensures Valid() && chatHistory == []
      ensures Get() == [SystemEntry()]
    {
      chatHistory := [];
    }
  }
}
