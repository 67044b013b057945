/** The clean-up both route families apply to a model reply before `JSON.parse`:
    `aiResponse.replace(/```json/g, '').replace(/```/g, '')`. */
module Fences {
  import opened Strings

  const JsonFence: string := "```json"
  const Fence: string := "```"

  function Clean(reply: string): string {
    ReplaceAll(ReplaceAll(reply, JsonFence, ""), Fence, "")
  }

  /** No three backticks in a row anywhere in `s`. */
  predicate NoFence(s: string)
    decreases |s|
  {
    |s| < 3 || (!(Fence <= s) && NoFence(s[1..]))
  }

  lemma FencePrefix(s: string)
    ensures Fence <= s <==> |s| >= 3 && s[0] == '`' && s[1] == '`' && s[2] == '`'
  {
    if |s| >= 3 && s[0] == '`' && s[1] == '`' && s[2] == '`' {
      assert s[..3] == Fence;
    }
  }

  /** After a lone backtick that does not open a fence, what the removal keeps
      of the rest cannot begin with two more backticks. */
  lemma NoFenceAfterBacktick(s: string)
    requires s != [] && s[0] == '`' && !(Fence <= s)
    ensures var rest := ReplaceAll(s[1..], Fence, "");
      !(|rest| >= 2 && rest[0] == '`' && rest[1] == '`')
  {
    var u := s[1..];
    FencePrefix(s);
    FencePrefix(u);
    if u != [] && u[0] == '`' {
      assert ReplaceAll(u, Fence, "") == [u[0]] + ReplaceAll(u[1..], Fence, "");
      var w := u[1..];
      if w != [] {
        FencePrefix(w);
        assert ReplaceAll(w, Fence, "") == [w[0]] + ReplaceAll(w[1..], Fence, "");
      }
    }
  }

  /** Removing every "```" leaves no "```": the removal never joins backticks
      from either side of a removed fence into a new one. */
  lemma {:induction false} FenceRemovalComplete(s: string)
    ensures NoFence(ReplaceAll(s, Fence, ""))
    decreases |s|
  {
    if s != [] {
      if Fence <= s {
        FenceRemovalComplete(s[3..]);
        assert ReplaceAll(s, Fence, "") == "" + ReplaceAll(s[3..], Fence, "");
        assert "" + ReplaceAll(s[3..], Fence, "") == ReplaceAll(s[3..], Fence, "");
      } else {
        FenceRemovalComplete(s[1..]);
        var rest := ReplaceAll(s[1..], Fence, "");
        var r := [s[0]] + rest;
        assert ReplaceAll(s, Fence, "") == r;
        if s[0] == '`' {
          NoFenceAfterBacktick(s);
        }
        FencePrefix(r);
        assert r[1..] == rest;
      }
    }
  }

  /** The text handed to `JSON.parse` never contains a code fence. */
  lemma CleanLeavesNoFence(reply: string)
    ensures NoFence(Clean(reply))
  {
    FenceRemovalComplete(ReplaceAll(reply, JsonFence, ""));
  }

  /** A reply wrapped in a ```json fence cleans to exactly the body inside it, which
      is what the bare body cleans to: both parse identically. */
  lemma FencedReplyCleansToBody(body: string)
    requires '`' !in body
    ensures Clean(JsonFence + body + Fence) == body
    ensures Clean(body) == body
  {
    var wrapped := JsonFence + body + Fence;
    assert JsonFence <= wrapped;
    assert wrapped[|JsonFence|..] == body + Fence;
    ReplaceAllSkipsPlain(body, Fence, JsonFence, "");
    assert ReplaceAll(Fence, JsonFence, "") == Fence by {
      assert ReplaceAll(Fence, JsonFence, "") == [Fence[0]] + ReplaceAll(Fence[1..], JsonFence, "");
      assert ReplaceAll(Fence[1..], JsonFence, "") == [Fence[1]] + ReplaceAll(Fence[2..], JsonFence, "");
      assert ReplaceAll(Fence[2..], JsonFence, "") == [Fence[2]] + ReplaceAll(Fence[3..], JsonFence, "");
    }
    assert ReplaceAll(wrapped, JsonFence, "") == body + Fence;
    ReplaceAllSkipsPlain(body, Fence, Fence, "");
    assert ReplaceAll(Fence, Fence, "") == "";
    assert body + "" == body;
    ReplaceAllSkipsPlain(body, "", JsonFence, "");
    ReplaceAllSkipsPlain(body, "", Fence, "");
    assert body + "" == body;
  }
}
