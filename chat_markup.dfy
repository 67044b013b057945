/** How the chat panel (frontend/src/components/Chat.tsx) turns a message's content into
    the HTML it shows: backslashes removed, then `**bold**` spans, then `` `code` `` spans,
    each made `<strong>`, with the `/g` regular expressions scanning left to right. */
module ChatMarkup {
  import opened Wrappers
  import opened Strings

  const Strong: string := "<strong>"
  const StrongEnd: string := "</strong>"

  /** The characters `.` does not match. */
  predicate IsLineTerminator(c: char) {
    c == '\n' || c == '\r' || c == '\U{2028}' || c == '\U{2029}'
  }

  /** Some line terminator sits before index `k` of `t`. */
  predicate BreakBefore(t: string, k: int) {
    exists m :: 0 <= m < k && m < |t| && IsLineTerminator(t[m])
  }

  /** Where the lazy `.*?` followed by `**` first succeeds on `t`: the index of the first `**`,
      provided no line terminator comes before it; `None` when every `**` has one before it. */
  function BoldEnd(t: string): (j: Option<nat>)
    ensures j.Some? ==> j.value + 2 <= |t| && t[j.value] == '*' && t[j.value + 1] == '*'
    ensures j.Some? ==> forall k :: 0 <= k < j.value ==> !IsLineTerminator(t[k])
    ensures j.Some? ==> forall k :: 0 <= k < j.value ==> !(t[k] == '*' && t[k + 1] == '*')
    ensures j.None? ==> forall k :: 0 <= k && k + 1 < |t| && t[k] == '*' && t[k + 1] == '*' ==> BreakBefore(t, k)
    decreases |t|
  {
    if |t| >= 2 && t[0] == '*' && t[1] == '*' then Some(0)
    else if t == [] || IsLineTerminator(t[0]) then None
    else
      var tail := BoldEnd(t[1..]);
      if tail.None? then
        LineBreaksBeforeStars(t);
        None
      else
        Some(tail.value + 1)
  }

  /** If every `**` in the tail of `t` has a line terminator before it, so has every `**`
      in `t` past its first character. */
  lemma LineBreaksBeforeStars(t: string)
    requires t != []
    requires forall k :: 0 <= k && k + 1 < |t[1..]| && t[1..][k] == '*' && t[1..][k + 1] == '*' ==>
               BreakBefore(t[1..], k)
    ensures forall k :: 1 <= k && k + 1 < |t| && t[k] == '*' && t[k + 1] == '*' ==> BreakBefore(t, k)
  {
    forall k | 1 <= k && k + 1 < |t| && t[k] == '*' && t[k + 1] == '*'
      ensures BreakBefore(t, k)
    {
      assert t[1..][k - 1] == '*' && t[1..][k] == '*';
      var m :| 0 <= m < k - 1 && m < |t[1..]| && IsLineTerminator(t[1..][m]);
      assert IsLineTerminator(t[m + 1]);
    }
  }

  /** The bold pass: each `**`, its lazy match up to the next `**` on the same line, and
      that `**` become `<strong>`, the text, `</strong>`. */
  function Bold(s: string): string
    decreases |s|
  {
    if s == [] then []
    else if |s| >= 2 && s[0] == '*' && s[1] == '*' && BoldEnd(s[2..]).Some? then
      var j := BoldEnd(s[2..]).value;
      Strong + s[2..j + 2] + StrongEnd + Bold(s[j + 4..])
    else
      [s[0]] + Bold(s[1..])
  }

  /** `x` holds no `**`. */
  predicate NoDoubleStar(x: string) {
    forall k :: 0 <= k && k + 1 < |x| ==> !(x[k] == '*' && x[k + 1] == '*')
  }

  /** `x` can sit between two `**` on one line and be matched whole by the lazy `.*?`:
      it holds no `**`, does not end in `*` (that `*` and the closing `**` would end the
      match one character early) and holds no line terminator. */
  predicate BoldText(x: string) {
    NoDoubleStar(x) && (x == [] || x[|x| - 1] != '*')
    && forall k :: 0 <= k < |x| ==> !IsLineTerminator(x[k])
  }

  /** After the opening `**`, the lazy match stops at the `**` that follows `x`. */
  lemma {:induction false} BoldEndAfter(x: string, rest: string)
    requires BoldText(x)
    ensures BoldEnd(x + "**" + rest) == Some(|x|)
    decreases |x|
  {
    var t := x + "**" + rest;
    if x != [] {
      assert t[0] == x[0] && !IsLineTerminator(t[0]);
      assert !(t[0] == '*' && t[1] == '*') by {
        if |x| >= 2 {
          assert t[1] == x[1];
        } else {
          assert x[|x| - 1] == x[0];
        }
      }
      var y := x[1..];
      assert BoldText(y) by {
        assert forall k :: 0 <= k < |y| ==> y[k] == x[k + 1];
      }
      assert t[1..] == y + "**" + rest;
      BoldEndAfter(y, rest);
    }
  }

  /** A closed `**x**` on one line becomes `<strong>x</strong>`, and the pass goes on
      after it. */
  lemma BoldSpan(x: string, rest: string)
    requires BoldText(x)
    ensures Bold("**" + x + "**" + rest) == Strong + x + StrongEnd + Bold(rest)
  {
    var s := "**" + x + "**" + rest;
    assert s[2..] == x + "**" + rest;
    BoldEndAfter(x, rest);
    assert s[2..|x| + 2] == x;
    assert s[|x| + 4..] == rest;
  }

  /** The index of the first `c` in `t`. */
  function IndexOf(t: string, c: char): (i: nat)
    requires c in t
    ensures i < |t| && t[i] == c && c !in t[..i]
  {
    if t[0] == c then 0
    else
      assert c in t[1..] by {
        assert t == [t[0]] + t[1..];
      }
      var i := IndexOf(t[1..], c) + 1;
      assert t[..i] == [t[0]] + t[1..][..i - 1];
      i
  }

  /** The code pass: each backtick, the text up to the next backtick, and that backtick
      become `<strong>`, the text, `</strong>`; a backtick with none after it stays. */
  function CodeSpans(s: string): string
    decreases |s|
  {
    if s == [] then []
    else if s[0] == '`' && '`' in s[1..] then
      var j := IndexOf(s[1..], '`') + 1;
      Strong + s[1..j] + StrongEnd + CodeSpans(s[j + 1..])
    else
      [s[0]] + CodeSpans(s[1..])
  }

  /** A closed `` `x` `` becomes `<strong>x</strong>`, and the pass goes on after it. */
  lemma CodeSpan(x: string, rest: string)
    requires '`' !in x
    ensures CodeSpans("`" + x + "`" + rest) == Strong + x + StrongEnd + CodeSpans(rest)
  {
    var s := "`" + x + "`" + rest;
    var t := s[1..];
    assert t == x + "`" + rest;
    assert t[|x|] == '`';
    var i := IndexOf(t, '`');
    assert s[1..|x| + 1] == x;
    assert s[|x| + 2..] == rest;
  }

  /** A character absent from the text and from the markup is absent from the bold pass's output. */
  lemma {:induction false} BoldAddsOnlyMarkup(s: string, c: char)
    requires c !in s && c !in Strong && c !in StrongEnd
    ensures c !in Bold(s)
    decreases |s|
  {
    if s != [] {
      if |s| >= 2 && s[0] == '*' && s[1] == '*' && BoldEnd(s[2..]).Some? {
        var j := BoldEnd(s[2..]).value;
        assert c !in s[j + 4..] && c !in s[2..j + 2];
        BoldAddsOnlyMarkup(s[j + 4..], c);
      } else {
        assert c !in s[1..];
        BoldAddsOnlyMarkup(s[1..], c);
      }
    }
  }

  /** A character absent from the text and from the markup is absent from the code pass's output. */
  lemma {:induction false} CodeSpansAddOnlyMarkup(s: string, c: char)
    requires c !in s && c !in Strong && c !in StrongEnd
    ensures c !in CodeSpans(s)
    decreases |s|
  {
    if s != [] {
      if s[0] == '`' && '`' in s[1..] {
        var j := IndexOf(s[1..], '`') + 1;
        assert c !in s[j + 1..] && c !in s[1..j];
        CodeSpansAddOnlyMarkup(s[j + 1..], c);
      } else {
        assert c !in s[1..];
        CodeSpansAddOnlyMarkup(s[1..], c);
      }
    }
  }

  /** The HTML a message's content is shown as: backslashes removed, then bold spans,
      then code spans, made `<strong>`; no backslash survives. */
  function RenderContent(content: string): (html: string)
    ensures '\\' !in html
  {
    var plain := ReplaceAll(content, "\\", "");
    ReplaceAllCharGone(content, '\\');
    assert "\\" == ['\\'];
    assert '\\' !in Strong && '\\' !in StrongEnd;
    BoldAddsOnlyMarkup(plain, '\\');
    CodeSpansAddOnlyMarkup(Bold(plain), '\\');
    CodeSpans(Bold(plain))
  }

  /** A span's markup and text hold no backtick, so only what follows it counts. */
  lemma SpanCount(text: string, rest: string)
    requires '`' !in text
    ensures Count(Strong + text + StrongEnd + rest, '`') == Count(rest, '`')
  {
    CountAbsent(text, '`');
    CountAbsent(Strong, '`');
    CountAbsent(StrongEnd, '`');
    CountAppend(Strong + text + StrongEnd, rest, '`');
    CountAppend(Strong + text, StrongEnd, '`');
    CountAppend(Strong, text, '`');
  }

  /** A backtick, text without one, a backtick and the rest: two more than the rest. */
  lemma PairCount(s: string, j: nat)
    requires 1 <= j < |s| && s[0] == '`' && s[j] == '`' && '`' !in s[1..j]
    ensures Count(s, '`') == 2 + Count(s[j + 1..], '`')
  {
    CountAbsent(s[1..j], '`');
    assert s == [s[0]] + s[1..j] + [s[j]] + s[j + 1..];
    CountAppend([s[0]] + s[1..j] + [s[j]], s[j + 1..], '`');
    CountAppend([s[0]] + s[1..j], [s[j]], '`');
    CountAppend([s[0]], s[1..j], '`');
  }

  /** Backticks pair up left to right into spans; only an odd one out is left behind. */
  lemma {:induction false} CodeSpansLeaveOddBacktick(s: string)
    ensures Count(CodeSpans(s), '`') == Count(s, '`') % 2
    decreases |s|
  {
    if s != [] {
      if s[0] == '`' && '`' in s[1..] {
        var j := IndexOf(s[1..], '`') + 1;
        CodeSpansLeaveOddBacktick(s[j + 1..]);
        SpanStep(s, j);
      } else {
        CodeSpansLeaveOddBacktick(s[1..]);
        PlainStep(s);
      }
    }
  }

  /** The step of the induction where `s` opens with a closed span. */
  lemma SpanStep(s: string, j: nat)
    requires s != [] && s[0] == '`' && '`' in s[1..] && j == IndexOf(s[1..], '`') + 1
    requires Count(CodeSpans(s[j + 1..]), '`') == Count(s[j + 1..], '`') % 2
    ensures Count(CodeSpans(s), '`') == Count(s, '`') % 2
  {
    assert s[1..][..j - 1] == s[1..j];
    var rest := CodeSpans(s[j + 1..]);
    assert CodeSpans(s) == Strong + s[1..j] + StrongEnd + rest;
    SpanCount(s[1..j], rest);
    PairCount(s, j);
    ParityStep(2, Count(rest, '`'), Count(s[j + 1..], '`'));
  }

  /** The step of the induction where the first character of `s` is copied. */
  lemma PlainStep(s: string)
    requires s != [] && !(s[0] == '`' && '`' in s[1..])
    requires Count(CodeSpans(s[1..]), '`') == Count(s[1..], '`') % 2
    ensures Count(CodeSpans(s), '`') == Count(s, '`') % 2
  {
    var extra := if s[0] == '`' then 1 else 0;
    CopiedCount(s, extra);
    if s[0] == '`' {
      CountAbsent(s[1..], '`');
    }
    ParityStep(extra, Count(CodeSpans(s[1..]), '`'), Count(s[1..], '`'));
  }

  /** Copying the first character adds it to both counts. */
  lemma CopiedCount(s: string, extra: nat)
    requires s != [] && !(s[0] == '`' && '`' in s[1..])
    requires extra == if s[0] == '`' then 1 else 0
    ensures Count(CodeSpans(s), '`') == extra + Count(CodeSpans(s[1..]), '`')
    ensures Count(s, '`') == extra + Count(s[1..], '`')
  {
    var rest := CodeSpans(s[1..]);
    assert CodeSpans(s) == [s[0]] + rest;
    CountAppend([s[0]], rest, '`');
    assert s == [s[0]] + s[1..];
    CountAppend([s[0]], s[1..], '`');
  }

  /** Adding `extra` backticks: a pair leaves the parity as it is, a single one sets it
      when there were none. */
  lemma ParityStep(extra: nat, shown: nat, total: nat)
    requires shown == total % 2
    requires extra == 0 || extra == 2 || (extra == 1 && total == 0)
    ensures (if extra == 2 then shown else extra + shown) == (extra + total) % 2
  {
  }

  /** Text without backticks is left as it is. */
  lemma {:induction false} CodeSpansPlain(s: string)
    requires '`' !in s
    ensures CodeSpans(s) == s
    decreases |s|
  {
    if s != [] {
      CodeSpansPlain(s[1..]);
      assert s == [s[0]] + s[1..];
    }
  }

  /** Text without asterisks is left as it is by the bold pass. */
  lemma {:induction false} BoldPlain(s: string)
    requires '*' !in s
    ensures Bold(s) == s
    decreases |s|
  {
    if s != [] {
      BoldPlain(s[1..]);
      assert s == [s[0]] + s[1..];
    }
  }

  /** A message without backslashes, asterisks or backticks is shown as written. */
  lemma PlainRendersAsIs(content: string)
    requires '\\' !in content && '*' !in content && '`' !in content
    ensures RenderContent(content) == content
  {
    ReplaceAllAbsent(content, '\\', "");
    assert "\\" == ['\\'];
    BoldPlain(content);
    CodeSpansPlain(content);
  }

  /** A bold span whose text needs no rendering of its own is shown as `<strong>x</strong>`. */
  lemma RenderBoldSpan(x: string)
    requires '\\' !in x && '*' !in x && '`' !in x
    requires forall k :: 0 <= k < |x| ==> !IsLineTerminator(x[k])
    ensures RenderContent("**" + x + "**") == Strong + x + StrongEnd
  {
    var content := "**" + x + "**";
    assert '\\' !in content;
    ReplaceAllAbsent(content, '\\', "");
    assert "\\" == ['\\'];
    assert ReplaceAll(content, "\\", "") == content;
    assert BoldText(x);
    BoldSpan(x, "");
    assert content == "**" + x + "**" + "";
    assert Bold("") == "";
    assert Bold(content) == Strong + x + StrongEnd;
    assert '`' !in Strong + x + StrongEnd;
    CodeSpansPlain(Strong + x + StrongEnd);
  }

  /** A code span whose text needs no rendering of its own is shown as `<strong>x</strong>`. */
  lemma RenderCodeSpan(x: string)
    requires '\\' !in x && '*' !in x && '`' !in x
    ensures RenderContent("`" + x + "`") == Strong + x + StrongEnd
  {
    var content := "`" + x + "`";
    ReplaceAllAbsent(content, '\\', "");
    assert "\\" == ['\\'];
    BoldPlain(content);
    CodeSpan(x, "");
    assert content == "`" + x + "`" + "";
    assert CodeSpans("") == "";
  }
}
