/** Conversation entries as both halves of the application exchange them, the
    shared system prompt, and the `role: content` rendering that the prompts sent
    to the model embed. */
module Transcript {
  import opened Strings

  /** A chat entry `{ role, content }`. Roles are kept as text: the backend writes
      `'System'`, `'user'` and `'assistant'`, the frontend `"system"`. */
  datatype Entry = Entry(role: string, content: string)

  /** The data-modelling instructions without the blank line around them; the
      backend (backend/Services/chatHistory.js) and the chat context
      (frontend/src/components/global/ChatContext.tsx) hold the same text. */
  const SystemPromptBody: string :=
    "You are a dedicated data-modeling "
    + "assistant only and nothing else. Respond to user queries with "
    + "high-level explanations about database tables and their columns in a numbered format and important "
    + "keywords **bolded**. \nExample:\n1. Users Table:\n   - id: UUID\n   - name: VARCHAR\n   - email: VARCHAR\n"
    + "   - created_at: TIMESTAMP\n2. Orders Table:\n   - id: UUID\n   - user_id: UUID\n   - total: DECIMAL\n"
    + "   - created_at: TIMESTAMP\n\nThen an explanation of the table and its columns.\nYou can talk high level "
    + "with the user if they should have any questions about the data model they are creating.\n\nNEVER respond "
    + "in JSON format unless the message explicitly starts with \"The user pressed the Generate data model button. "
    + "Also dont create composite keys.\""

  /** `systemMessage`: the instructions on lines of their own. */
  const SystemPrompt: string := "\n" + SystemPromptBody + "\n"

  /** `systemMessage.trim()` is the body. */
  lemma SystemPromptTrimmed()
    ensures Trim(SystemPrompt) == SystemPromptBody
  {
    assert SystemPromptBody[0] == 'Y';
    assert SystemPromptBody[|SystemPromptBody| - 1] == '"';
    TrimFramed(SystemPromptBody, '\n');
  }

  /** `${entry.role}: ${entry.content}`. */
  function RenderEntry(e: Entry): string {
    e.role + ": " + e.content
  }

  function RenderedLines(history: seq<Entry>): (lines: seq<string>)
    ensures |lines| == |history|
    ensures forall i :: 0 <= i < |history| ==> lines[i] == RenderEntry(history[i])
  {
    if history == [] then [] else [RenderEntry(history[0])] + RenderedLines(history[1..])
  }

  /** `history.map((entry) => `${entry.role}: ${entry.content}`).join("\n")`. */
  function Render(history: seq<Entry>): string {
    Join(RenderedLines(history), "\n")
  }

  predicate SingleLine(e: Entry) {
    '\n' !in e.role && '\n' !in e.content
  }

  lemma RenderSingleLine(e: Entry)
    requires SingleLine(e)
    ensures '\n' !in RenderEntry(e)
  {
    assert '\n' !in ": ";
  }

  /** When no entry spans lines, the rendering has one line per entry, in order:
      splitting it at line breaks gives back each entry's `role: content` line. */
  lemma RenderLineByLine(history: seq<Entry>)
    requires |history| >= 1
    requires forall e :: e in history ==> SingleLine(e)
    ensures Split(Render(history), '\n') == RenderedLines(history)
  {
    var lines := RenderedLines(history);
    forall p | p in lines ensures '\n' !in p {
      var i :| 0 <= i < |lines| && lines[i] == p;
      RenderSingleLine(history[i]);
    }
    assert "\n" == ['\n'];
    SplitJoin(lines, '\n');
  }
}
