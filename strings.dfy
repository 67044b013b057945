/** The JavaScript string operations the source relies on, with the properties
    the rest of the model needs: `trim`, `startsWith`, `split` on one character,
    `Array.prototype.join`, and global replacement of a literal pattern. */
module Strings {

  /** The characters ECMAScript counts as white space or line terminators:
      what the regular-expression class `\s` matches and what `trim` removes. */
  const Whitespace: set<char> := {
    ' ', '\t', '\n', '\r', '\U{000B}', '\U{000C}', '\U{00A0}', '\U{1680}',
    '\U{2000}', '\U{2001}', '\U{2002}', '\U{2003}', '\U{2004}', '\U{2005}', '\U{2006}', '\U{2007}', '\U{2008}', '\U{2009}', '\U{200A}',
    '\U{2028}', '\U{2029}', '\U{202F}', '\U{205F}', '\U{3000}', '\U{FEFF}'
  }

  predicate IsWhitespace(c: char) {
    c in Whitespace
  }

  predicate AllWhitespace(s: string) {
    forall k :: 0 <= k < |s| ==> IsWhitespace(s[k])
  }

  /** Neither end of `s` is white space. */
  predicate IsTrimmed(s: string) {
    s == [] || (!IsWhitespace(s[0]) && !IsWhitespace(s[|s| - 1]))
  }

  /** The first index from `i` on that is not white space, or `|s|`. */
  function SpaceEnd(s: string, i: nat): (j: nat)
    requires i <= |s|
    ensures i <= j <= |s|
    ensures forall k :: i <= k < j ==> IsWhitespace(s[k])
    ensures j < |s| ==> !IsWhitespace(s[j])
    decreases |s| - i
  {
    if i < |s| && IsWhitespace(s[i]) then SpaceEnd(s, i + 1) else i
  }

  /** Where the white space that ends `s[..j]` begins: `j` less that run's length. */
  function SpaceStart(s: string, j: nat): (i: nat)
    requires j <= |s|
    ensures i <= j
    ensures forall k :: i <= k < j ==> IsWhitespace(s[k])
    ensures 0 < i ==> !IsWhitespace(s[i - 1])
    decreases j
  {
    if 0 < j && IsWhitespace(s[j - 1]) then SpaceStart(s, j - 1) else j
  }

  /** `s.trimStart()`: the suffix of `s` left after its leading white space. */
  function TrimStart(s: string): (r: string)
    ensures |r| <= |s| && r == s[|s| - |r|..]
    ensures forall k :: 0 <= k < |s| - |r| ==> IsWhitespace(s[k])
    ensures r != [] ==> !IsWhitespace(r[0])
  {
    s[SpaceEnd(s, 0)..]
  }

  /** `s.trim()`: the slice of `s` left after dropping white space at both ends. */
  function Trim(s: string): (r: string)
    ensures IsTrimmed(r)
    ensures var i := SpaceEnd(s, 0);
      && i + |r| <= |s| && r == s[i..i + |r|]
      && (forall k :: 0 <= k < i ==> IsWhitespace(s[k]))
      && (forall k :: i + |r| <= k < |s| ==> IsWhitespace(s[k]))
  {
    var i, j := SpaceEnd(s, 0), SpaceStart(s, |s|);
    if i < j then s[i..j] else []
  }

  /** `s.trim()` is empty exactly when `s` is all white space. */
  lemma TrimEmptyIff(s: string)
    ensures Trim(s) == "" <==> AllWhitespace(s)
  {
    var i := SpaceEnd(s, 0);
    if Trim(s) != "" {
      assert Trim(s)[0] == s[i];
    }
  }

  /** A trimmed string is its own trim. */
  lemma TrimIdempotent(s: string)
    requires IsTrimmed(s)
    ensures Trim(s) == s
  {
  }

  /** White space around a trimmed text is exactly what trimming takes away. */
  lemma TrimFramed(body: string, c: char)
    requires IsTrimmed(body) && body != [] && IsWhitespace(c)
    ensures Trim([c] + body + [c]) == body
  {
    var s := [c] + body + [c];
    assert SpaceEnd(s, 0) == SpaceEnd(s, 1) == 1;
    var t := s[1..];
    assert t == body + [c];
    assert SpaceStart(t, |t|) == SpaceStart(t, |body|) == |body|;
  }

  /** `parts.join(sep)`. */
  function Join(parts: seq<string>, sep: string): string
    decreases |parts|
  {
    if |parts| == 0 then ""
    else if |parts| == 1 then parts[0]
    else parts[0] + sep + Join(parts[1..], sep)
  }

  /** `s.split(c)` for a one-character separator: the maximal pieces between
      occurrences of `c`, empty pieces included. */
  function Split(s: string, c: char): (parts: seq<string>)
    ensures |parts| >= 1
    ensures forall p :: p in parts ==> c !in p
    decreases |s|
  {
    if s == [] then [""]
    else
      var rest := Split(s[1..], c);
      if s[0] == c then [""] + rest else [[s[0]] + rest[0]] + rest[1..]
  }

  /** Joining the pieces of a split with the separator gives back the string. */
  lemma {:induction false} JoinSplit(s: string, c: char)
    ensures Join(Split(s, c), [c]) == s
    decreases |s|
  {
    if s != [] {
      JoinSplit(s[1..], c);
      var rest := Split(s[1..], c);
      if s[0] == c {
        assert Split(s, c) == [""] + rest;
        assert s == [c] + s[1..];
      } else {
        var parts := Split(s, c);
        assert parts[0] == [s[0]] + rest[0] && parts[1..] == rest[1..];
        if |rest| == 1 {
          assert s == [s[0]] + rest[0];
        } else {
          assert Join(rest, [c]) == rest[0] + [c] + Join(rest[1..], [c]);
          assert s == [s[0]] + s[1..];
        }
      }
    }
  }

  /** Splitting a string that begins with a separator-free piece `a`. */
  lemma {:induction false} SplitPrefix(a: string, t: string, c: char)
    requires c !in a
    ensures Split(a + t, c) == [a + Split(t, c)[0]] + Split(t, c)[1..]
    decreases |a|
  {
    if a == [] {
      var parts := Split(t, c);
      assert a + t == t && a + parts[0] == parts[0];
      assert parts == [parts[0]] + parts[1..];
    } else {
      SplitPrefix(a[1..], t, c);
      assert (a + t)[1..] == a[1..] + t;
      assert a == [a[0]] + a[1..];
      assert [a[0]] + (a[1..] + Split(t, c)[0]) == a + Split(t, c)[0];
    }
  }

  /** Splitting a join of separator-free pieces gives back the pieces. */
  lemma {:induction false} SplitJoin(parts: seq<string>, c: char)
    requires |parts| >= 1
    requires forall p :: p in parts ==> c !in p
    ensures Split(Join(parts, [c]), c) == parts
    decreases |parts|
  {
    if |parts| == 1 {
      SplitPrefix(parts[0], "", c);
      assert parts[0] + "" == parts[0];
    } else {
      var tail := Join(parts[1..], [c]);
      SplitJoin(parts[1..], c);
      assert ([c] + tail)[1..] == tail;
      assert Split([c] + tail, c) == [""] + parts[1..];
      SplitPrefix(parts[0], [c] + tail, c);
      assert parts[0] + [c] + tail == parts[0] + ([c] + tail);
      assert parts[0] + "" == parts[0];
      assert parts == [parts[0]] + parts[1..];
    }
  }

  /** One step of `Split`: the first character either ends the first piece or joins it. */
  lemma SplitCons(s: string, c: char)
    requires s != []
    ensures s[0] == c ==> Split(s, c) == [""] + Split(s[1..], c)
    ensures s[0] != c ==> Split(s, c) == [[s[0]] + Split(s[1..], c)[0]] + Split(s[1..], c)[1..]
  {
  }

  /** A separator splits the text around it: the pieces of each side, side by side. */
  lemma {:induction false} SplitConcat(x: string, y: string, c: char)
    ensures Split(x + [c] + y, c) == Split(x, c) + Split(y, c)
    decreases |x|
  {
    var s := x + [c] + y;
    if x == [] {
      assert s == [c] + y && s[1..] == y;
      SplitCons(s, c);
    } else {
      assert s[0] == x[0] && s[1..] == x[1..] + [c] + y;
      SplitConcat(x[1..], y, c);
      SplitConsConcat(x, s, Split(y, c), c);
    }
  }

  lemma SplitConsConcat(x: string, s: string, right: seq<string>, c: char)
    requires x != [] && s != [] && s[0] == x[0]
    requires Split(s[1..], c) == Split(x[1..], c) + right
    ensures Split(s, c) == Split(x, c) + right
  {
    SplitCons(s, c);
    SplitCons(x, c);
    var left := Split(x[1..], c);
    var rest := Split(s[1..], c);
    if x[0] == c {
      ConsAssoc("", left, right);
    } else {
      assert |left| >= 1;
      HeadJoin([x[0]], left, right);
    }
  }

  lemma ConsAssoc<T>(a: T, left: seq<T>, right: seq<T>)
    ensures [a] + (left + right) == ([a] + left) + right
  {
  }

  lemma HeadJoin(h: string, left: seq<string>, right: seq<string>)
    requires |left| >= 1
    ensures [h + (left + right)[0]] + (left + right)[1..] == ([h + left[0]] + left[1..]) + right
  {
    assert (left + right)[0] == left[0];
    assert (left + right)[1..] == left[1..] + right;
  }

  /** A piece without the separator splits into itself. */
  lemma SplitWhole(a: string, c: char)
    requires c !in a
    ensures Split(a, c) == [a]
  {
    SplitPrefix(a, "", c);
    assert a + "" == a;
  }

  /** A separator-free first line splits off on its own. */
  lemma SplitLead(a: string, t: string, c: char)
    requires c !in a
    ensures Split(a + [c] + t, c) == [a] + Split(t, c)
  {
    SplitConcat(a, t, c);
    SplitWhole(a, c);
  }

  /** `parts.join(sep)` with one more part at the end. */
  lemma {:induction false} JoinSnoc(parts: seq<string>, x: string, sep: string)
    ensures Join(parts + [x], sep) == if parts == [] then x else Join(parts, sep) + sep + x
    decreases |parts|
  {
    if parts == [] {
      assert parts + [x] == [x];
    } else if |parts| == 1 {
      assert (parts + [x])[1..] == [x];
    } else {
      JoinSnoc(parts[1..], x, sep);
      assert (parts + [x])[1..] == parts[1..] + [x];
    }
  }

  /** Joining two non-empty lists of parts: the two joins around one separator. */
  lemma {:induction false} JoinAppend(a: seq<string>, b: seq<string>, sep: string)
    requires |a| >= 1 && |b| >= 1
    ensures Join(a + b, sep) == Join(a, sep) + sep + Join(b, sep)
    decreases |a|
  {
    if |a| == 1 {
      assert (a + b)[1..] == b;
    } else {
      JoinAppend(a[1..], b, sep);
      assert (a + b)[1..] == a[1..] + b;
    }
  }

  /** `s` with every run of `c` cut down to one `c`. */
  function Squeezed(s: string, c: char): (r: string)
    ensures |r| <= |s|
    ensures s != [] ==> r != [] && r[0] == s[0]
    ensures forall k :: 0 <= k < |r| - 1 ==> !(r[k] == c && r[k + 1] == c)
    decreases |s|
  {
    if s == [] then []
    else if |s| > 1 && s[0] == c && s[1] == c then Squeezed(s[1..], c)
    else [s[0]] + Squeezed(s[1..], c)
  }

  /** `s.split(/c+/)`: like `Split`, but a run of separators counts as one, so the
      pieces are those of the text with every run squeezed to a single separator. */
  function SplitRuns(s: string, c: char): (parts: seq<string>)
    ensures |parts| >= 1
    ensures forall p :: p in parts ==> c !in p
    ensures parts == Split(Squeezed(s, c), c)
    decreases |s|
  {
    if s == [] then [""]
    else
      var rest := SplitRuns(s[1..], c);
      if s[0] == c then
        if |s| > 1 && s[1] == c then rest
        else
          assert ([c] + Squeezed(s[1..], c))[1..] == Squeezed(s[1..], c);
          [""] + rest
      else
        assert ([s[0]] + Squeezed(s[1..], c))[1..] == Squeezed(s[1..], c);
        [[s[0]] + rest[0]] + rest[1..]
  }

  /** `s` without any `c`. */
  function Removed(s: string, c: char): string {
    if s == [] then [] else (if s[0] == c then [] else [s[0]]) + Removed(s[1..], c)
  }

  lemma {:induction false} RemovedAppend(a: string, b: string, c: char)
    ensures Removed(a + b, c) == Removed(a, c) + Removed(b, c)
    decreases |a|
  {
    if a == [] {
      assert a + b == b;
    } else {
      RemovedAppend(a[1..], b, c);
      assert (a + b)[1..] == a[1..] + b;
    }
  }

  /** The characters of `s` that are not white space, in order. */
  function Visible(s: string): string
    decreases |s|
  {
    if s == [] then [] else (if IsWhitespace(s[0]) then [] else [s[0]]) + Visible(s[1..])
  }

  lemma {:induction false} VisibleAppend(a: string, b: string)
    ensures Visible(a + b) == Visible(a) + Visible(b)
    decreases |a|
  {
    if a == [] {
      assert a + b == b;
    } else {
      var own := if IsWhitespace(a[0]) then [] else [a[0]];
      assert Visible(a + b) == own + Visible(a[1..] + b) by {
        assert (a + b)[0] == a[0] && (a + b)[1..] == a[1..] + b;
      }
      VisibleAppend(a[1..], b);
      assert own + (Visible(a[1..]) + Visible(b)) == (own + Visible(a[1..])) + Visible(b);
    }
  }

  lemma {:induction false} VisibleOfSpace(s: string)
    requires AllWhitespace(s)
    ensures Visible(s) == []
    decreases |s|
  {
    if s != [] {
      VisibleOfSpace(s[1..]);
    }
  }

  /** Squeezing runs drops only separators: every other character stays, in order. */
  lemma {:induction false} SqueezedDropsOnlySeparators(s: string, c: char)
    ensures Removed(Squeezed(s, c), c) == Removed(s, c)
    ensures IsWhitespace(c) ==> Visible(Squeezed(s, c)) == Visible(s)
    decreases |s|
  {
    if s != [] {
      SqueezedDropsOnlySeparators(s[1..], c);
      if !(|s| > 1 && s[0] == c && s[1] == c) {
        var r := Squeezed(s, c);
        assert r[1..] == Squeezed(s[1..], c);
      }
    }
  }

  /** `trim()` drops white space only: the visible text is unchanged. */
  lemma TrimKeepsVisible(s: string)
    ensures Visible(Trim(s)) == Visible(s)
  {
    var i := SpaceEnd(s, 0);
    var r := Trim(s);
    var tail := s[i + |r|..];
    assert s == s[..i] + r + tail;
    VisibleAppend(s[..i] + r, tail);
    VisibleAppend(s[..i], r);
    VisibleOfSpace(s[..i]);
    VisibleOfSpace(tail);
  }

  /** Joining with white space shows the same text as joining with nothing. */
  lemma {:induction false} VisibleJoin(parts: seq<string>, sep: string)
    requires AllWhitespace(sep)
    ensures Visible(Join(parts, sep)) == Visible(Join(parts, ""))
    decreases |parts|
  {
    if |parts| > 1 {
      VisibleJoin(parts[1..], sep);
      VisibleAppend(parts[0] + sep, Join(parts[1..], sep));
      VisibleAppend(parts[0], sep);
      VisibleOfSpace(sep);
      VisibleAppend(parts[0] + "", Join(parts[1..], ""));
      assert parts[0] + "" == parts[0];
    }
  }

  /** Splitting at runs of a white-space separator loses nothing but separators:
      the pieces, put back together, show the text. */
  lemma SplitRunsKeepsText(s: string, c: char)
    requires IsWhitespace(c)
    ensures Visible(Join(SplitRuns(s, c), "")) == Visible(s)
  {
    var parts := SplitRuns(s, c);
    JoinSplit(Squeezed(s, c), c);
    VisibleJoin(parts, [c]);
    SqueezedDropsOnlySeparators(s, c);
  }

  /** Splitting at runs drops the separators and nothing else, and only the first and
      the last piece can be empty: a run of separators opens no empty piece. */
  lemma SplitRunsPieces(s: string, c: char)
    ensures Join(SplitRuns(s, c), "") == Removed(s, c)
    ensures forall i :: 0 < i < |SplitRuns(s, c)| - 1 ==> SplitRuns(s, c)[i] != ""
  {
    var squeezed := Squeezed(s, c);
    SplitInteriorNonEmpty(squeezed, c);
    JoinSplit(squeezed, c);
    RemovedJoin(Split(squeezed, c), c);
    SqueezedDropsOnlySeparators(s, c);
  }

  /** Without two separators in a row, no piece between two separators is empty. */
  lemma {:induction false} SplitInteriorNonEmpty(x: string, c: char)
    requires forall k :: 0 <= k < |x| - 1 ==> !(x[k] == c && x[k + 1] == c)
    ensures forall i :: 0 < i < |Split(x, c)| - 1 ==> Split(x, c)[i] != ""
    decreases |x|
  {
    if x != [] {
      var tail := x[1..];
      SplitInteriorNonEmpty(tail, c);
      SplitCons(x, c);
      if x[0] == c && tail != [] {
        assert tail[0] == x[1] != c;
        SplitCons(tail, c);
      }
    }
  }

  /** A text without `c` has nothing to remove. */
  lemma {:induction false} RemovedAbsent(s: string, c: char)
    requires c !in s
    ensures Removed(s, c) == s
    decreases |s|
  {
    if s != [] {
      RemovedAbsent(s[1..], c);
      assert [s[0]] + s[1..] == s;
    }
  }

  /** Removing the separator from a join of separator-free pieces concatenates them. */
  lemma {:induction false} RemovedJoin(parts: seq<string>, c: char)
    requires forall p :: p in parts ==> c !in p
    ensures Removed(Join(parts, [c]), c) == Join(parts, "")
    decreases |parts|
  {
    if |parts| == 1 {
      RemovedAbsent(parts[0], c);
    } else if |parts| > 1 {
      var first, rest := parts[0], parts[1..];
      assert first in parts;
      RemovedJoin(rest, c);
      RemovedAppend(first + [c], Join(rest, [c]), c);
      RemovedAppend(first, [c], c);
      assert Removed([c], c) == [] by {
        assert [c][1..] == [];
      }
      RemovedAbsent(first, c);
      assert first + [] == first && first + "" == first;
    }
  }

  /** `[a, ...rest].join(sep)`. */
  lemma JoinCons(a: string, rest: seq<string>, sep: string)
    ensures Join([a] + rest, sep) == if rest == [] then a else a + sep + Join(rest, sep)
  {
    if rest != [] {
      assert ([a] + rest)[1..] == rest;
    }
  }

  /** `s.replace(/pat/g, rep)` for a literal, non-empty `pat`: occurrences are
      found left to right and do not overlap. */
  function ReplaceAll(s: string, pat: string, rep: string): string
    requires |pat| > 0
    decreases |s|
  {
    if s == [] then []
    else if pat <= s then rep + ReplaceAll(s[|pat|..], pat, rep)
    else [s[0]] + ReplaceAll(s[1..], pat, rep)
  }

  /** A prefix none of whose characters can begin the pattern passes through unchanged. */
  lemma {:induction false} ReplaceAllSkipsPlain(a: string, t: string, pat: string, rep: string)
    requires |pat| > 0
    requires pat[0] !in a
    ensures ReplaceAll(a + t, pat, rep) == a + ReplaceAll(t, pat, rep)
    decreases |a|
  {
    if a == [] {
      assert a + t == t;
    } else {
      assert (a + t)[0] == a[0];
      ReplaceAllSkipsPlain(a[1..], t, pat, rep);
      assert (a + t)[1..] == a[1..] + t;
      assert a == [a[0]] + a[1..];
    }
  }

  /** Removing every occurrence of a one-character pattern leaves none of it. */
  lemma {:induction false} ReplaceAllCharGone(s: string, c: char)
    ensures c !in ReplaceAll(s, [c], "")
    decreases |s|
  {
    if s != [] {
      ReplaceAllCharGone(s[1..], c);
      if [c] <= s {
        assert s[1..] == s[|[c]|..];
      }
    }
  }

  /** Replacing a pattern that does not occur changes nothing. */
  lemma {:induction false} ReplaceAllAbsent(s: string, c: char, rep: string)
    requires c !in s
    ensures ReplaceAll(s, [c], rep) == s
    decreases |s|
  {
    if s != [] {
      ReplaceAllAbsent(s[1..], c, rep);
      assert !([c] <= s) && s == [s[0]] + s[1..];
    }
  }

  /** The number of occurrences of `c` in `s`. */
  function Count(s: string, c: char): nat {
    if s == [] then 0 else (if s[0] == c then 1 else 0) + Count(s[1..], c)
  }

  lemma {:induction false} CountAppend(a: string, b: string, c: char)
    ensures Count(a + b, c) == Count(a, c) + Count(b, c)
    decreases |a|
  {
    if a == [] {
      assert a + b == b;
    } else {
      CountAppend(a[1..], b, c);
      assert (a + b)[1..] == a[1..] + b;
    }
  }

  lemma {:induction false} CountAbsent(s: string, c: char)
    requires c !in s
    ensures Count(s, c) == 0
    decreases |s|
  {
    if s != [] {
      CountAbsent(s[1..], c);
    }
  }

  /** Joining `n` pieces free of `c` with `c` puts exactly `n - 1` of them in the text:
      it has exactly `n` lines when `c` is the line break. */
  lemma {:induction false} CountJoin(parts: seq<string>, c: char)
    requires |parts| >= 1
    requires forall p :: p in parts ==> c !in p
    ensures Count(Join(parts, [c]), c) == |parts| - 1
    decreases |parts|
  {
    CountAbsent(parts[0], c);
    if |parts| > 1 {
      CountJoin(parts[1..], c);
      CountAppend(parts[0] + [c], Join(parts[1..], [c]), c);
      CountAppend(parts[0], [c], c);
    }
  }
}
