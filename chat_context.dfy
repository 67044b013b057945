/** The frontend's conversation context (frontend/src/components/global/ChatContext.tsx):
    at most twenty messages, the system message at index 0, and on overflow the
    message at index 1, the oldest of the conversation, spliced out. */
module ChatContext {
  import opened Transcript

  const MaxMessages: nat := 20

  datatype Role = System | User | Assistant

  datatype Message = Message(role: Role, content: string)

  /** `{ role: "system", content: systemMessage }`. */
  function SystemMessage(): Message {
    Message(System, SystemPrompt)
  }

  /** The history the provider starts with and `clearChat` restores. */
  function InitialHistory(): (h: seq<Message>)
    ensures h == [SystemMessage()] && h[0].role == System
  {
    [SystemMessage()]
  }

  /** The system message first, no other message from the system, and within the cap. */
  predicate WellFormed(h: seq<Message>) {
    && 1 <= |h| <= MaxMessages
    && h[0] == SystemMessage()
    && forall i :: 1 <= i < |h| ==> h[i].role != System
  }

  /** The history after `addMessage`: the copy with `m` pushed, less its index 1 when
      that copy is over the cap. */
  function WithMessage(h: seq<Message>, m: Message): (r: seq<Message>)
    ensures |r| >= 1 && r[|r| - 1] == m
    ensures |h| <= MaxMessages ==> |r| <= MaxMessages
    ensures |h| < MaxMessages ==> r == h + [m]
    ensures |h| >= MaxMessages ==> |r| == |h| && r == h[..1] + h[2..] + [m]
    ensures |h| >= MaxMessages ==> multiset(r) == multiset(h) - multiset{h[1]} + multiset{m}
  {
    var grown := h + [m];
    if |grown| > MaxMessages then
      assert grown[2..] == h[2..] + [m];
      assert h == h[..1] + [h[1]] + h[2..];
      assert multiset(h) - multiset{h[1]} == multiset(h[..1]) + multiset(h[2..]);
      grown[..1] + grown[2..]
    else grown
  }

  /** Adding a user or assistant message keeps the history well formed. */
  lemma WithMessageWellFormed(h: seq<Message>, m: Message)
    requires WellFormed(h) && m.role != System
    ensures WellFormed(WithMessage(h, m))
  {
    var r := WithMessage(h, m);
    if |h| == MaxMessages {
      forall i | 1 <= i < |r| ensures r[i].role != System {
        if i < |r| - 1 {
          assert r[i] == h[i + 1];
        }
      }
    }
  }

  /** Removes `a[index]`, shifting what follows one place left: afterwards the
      first `a.Length - 1` elements are the old ones without it. */
  method SpliceOut(a: array<Message>, index: nat)
    requires index < a.Length
    modifies a
    ensures a[..a.Length - 1] == old(a[..index]) + old(a[index + 1..])
  {
    ghost var before := a[..];
    var k := index;
    while k < a.Length - 1
      invariant index <= k <= a.Length - 1
      invariant a[..index] == before[..index]
      invariant forall j :: index <= j < k ==> a[j] == before[j + 1]
      invariant a[k..] == before[k..]
    {
      a[k] := a[k + 1];
      k := k + 1;
    }
    assert a[..a.Length - 1] == before[..index] + before[index + 1..];
  }

  /** The `setChatHistory` updater of `addMessage`: copy, push, and splice index 1 out
      of a copy longer than the cap. */
  method AddUpdater(prev: seq<Message>, m: Message) returns (newHistory: seq<Message>)
    ensures newHistory == WithMessage(prev, m)
  {
    var copy := new Message[|prev| + 1];
    var i := 0;
    while i < |prev|
      invariant 0 <= i <= |prev|
      invariant copy[..i] == prev[..i]
    {
      copy[i] := prev[i];
      i := i + 1;
    }
    copy[|prev|] := m;
    assert copy[..] == prev + [m];
    if copy.Length > MaxMessages {
      SpliceOut(copy, 1);
      newHistory := copy[..copy.Length - 1];
      assert newHistory == (prev + [m])[..1] + (prev + [m])[2..];
    } else {
      newHistory := copy[..];
    }
  }

  /** The `chatHistory` state of `ChatProvider`. */
  class ChatProvider {
    var chatHistory: seq<Message>

    predicate Valid()
      reads this
    {
      WellFormed(chatHistory)
    }

    constructor ()
      ensures chatHistory == InitialHistory() && Valid()
    {
      chatHistory := [SystemMessage()];
    }

    /** `addMessage(role, content)`: the role is `"user"` or `"assistant"` by its type. */
    method AddMessage(role: Role, content: string)
      requires role != System
      modifies this
      ensures chatHistory == WithMessage(old(chatHistory), Message(role, content))
      ensures old(Valid()) ==> Valid()
    {
      if Valid() {
        WithMessageWellFormed(chatHistory, Message(role, content));
      }
      chatHistory := AddUpdater(chatHistory, Message(role, content));
    }

    /** `clearChat()`. */
    method ClearChat()
      modifies this
      ensures chatHistory == InitialHistory() && Valid()
    {
      chatHistory := [SystemMessage()];
    }
  }
}
