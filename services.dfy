/** The data-model hook (`useDataModelServices` in
    frontend/src/components/Services/Services.tsx): the diagram on screen, the tables
    the model produced and those the user added by hand, and the pure string
    pipelines around its requests. Fetches are inputs: what the server answered. */
module Services {
  import opened Wrappers
  import opened Seqs
  import opened Strings
  import opened Diagram
  import opened InitialNodes

  // ----- The table id: `tableName.toLowerCase().replace(/\s+/g, '_')` -----

  predicate IsUpperAscii(c: char) {
    'A' <= c <= 'Z'
  }

  /** `toLowerCase` on one character, for the ASCII letters. */
  function LowerChar(c: char): (r: char)
    ensures !IsUpperAscii(r)
    ensures IsUpperAscii(c) ==> 'a' <= r <= 'z' && r as int - 'a' as int == c as int - 'A' as int
    ensures !IsUpperAscii(c) ==> r == c
    ensures IsWhitespace(r) <==> IsWhitespace(c)
  {
    if IsUpperAscii(c) then (c as int + 32) as char else c
  }

  function Lower(s: string): (r: string)
    ensures |r| == |s| && forall k :: 0 <= k < |s| ==> r[k] == LowerChar(s[k])
  {
    seq(|s|, k requires 0 <= k < |s| => LowerChar(s[k]))
  }

  /** `s.replace(/\s+/g, '_')`: each maximal run of white space becomes one `_`. */
  function Underscored(s: string): (r: string)
    ensures forall k :: 0 <= k < |r| ==> !IsWhitespace(r[k])
    ensures forall k :: 0 <= k < |r| ==> r[k] == '_' || r[k] in s
    ensures (forall k :: 0 <= k < |s| ==> !IsWhitespace(s[k])) ==> r == s
    decreases |s|
  {
    if s == [] then []
    else if IsWhitespace(s[0]) then
      var rest := TrimStart(s);
      assert |rest| < |s| by {
        assert SpaceEnd(s, 0) == SpaceEnd(s, 1);
      }
      assert forall c :: c in rest ==> c in s;
      "_" + Underscored(rest)
    else
      assert forall c :: c in s[1..] ==> c in s;
      [s[0]] + Underscored(s[1..])
  }

  /** A character that is not white space is copied. */
  lemma UnderscoredPlain(s: string)
    requires s != [] && !IsWhitespace(s[0])
    ensures Underscored(s) == [s[0]] + Underscored(s[1..])
  {
  }

  /** A stretch without white space passes through unchanged. */
  lemma {:induction false} UnderscoredWord(w: string, s: string)
    requires forall k :: 0 <= k < |w| ==> !IsWhitespace(w[k])
    ensures Underscored(w + s) == w + Underscored(s)
    decreases |w|
  {
    if w == [] {
      assert w + s == s;
    } else {
      var rest := w[1..];
      assert Underscored(w + s) == [w[0]] + Underscored(rest + s) by {
        var ws := w + s;
        assert ws[0] == w[0] && ws[1..] == rest + s;
        UnderscoredPlain(ws);
      }
      assert forall k :: 0 <= k < |rest| ==> !IsWhitespace(rest[k]) by {
        forall k | 0 <= k < |rest|
          ensures !IsWhitespace(rest[k])
        {
          assert rest[k] == w[k + 1];
        }
      }
      UnderscoredWord(rest, s);
      ConsAssoc(w[0], rest, Underscored(s));
      assert [w[0]] + rest == w;
    }
  }

  /** A maximal run of white space becomes a single `_`. */
  lemma UnderscoredRun(ws: string, t: string)
    requires ws != [] && AllWhitespace(ws)
    requires t == [] || !IsWhitespace(t[0])
    ensures Underscored(ws + t) == "_" + Underscored(t)
  {
    var s := ws + t;
    var j := SpaceEnd(s, 0);
    assert t != [] ==> s[|ws|] == t[0];
    assert s[0] == ws[0] && TrimStart(s) == s[j..] == t;
  }

  /** The id `handleAddNode` gives a table called `tableName`. */
  function Slug(tableName: string): (id: string)
    ensures forall k :: 0 <= k < |id| ==> !IsWhitespace(id[k]) && !IsUpperAscii(id[k])
    ensures (forall k :: 0 <= k < |tableName| ==> !IsWhitespace(tableName[k])) ==> id == Lower(tableName)
  {
    Underscored(Lower(tableName))
  }

  /** A two-word name: lower-cased, with the space turned into `_`. */
  lemma SlugOfTwoWords()
    ensures Slug("Order Items") == "order_items"
  {
    LowerOfTwoWords();
    UnderscoredOfTwoWords();
  }

  lemma LowerOfTwoWords()
    ensures Lower("Order Items") == "order items"
  {
    var lowered := Lower("Order Items");
    forall k | 0 <= k < 11
      ensures lowered[k] == "order items"[k]
    {
      assert lowered[k] == LowerChar("Order Items"[k]);
    }
  }

  lemma UnderscoredOfTwoWords()
    ensures Underscored("order items") == "order_items"
  {
    var first, second := "order", "items";
    LettersArePlain(first);
    LettersArePlain(second);
    assert "order items" == first + (" " + second);
    assert "order_items" == first + ("_" + second);
    UnderscoredWord(first, " " + second);
    assert IsWhitespace(' ');
    UnderscoredRun(" ", second);
    UnderscoredWord(second, []);
    assert second + [] == second;
  }

  lemma LettersArePlain(w: string)
    requires forall k :: 0 <= k < |w| ==> 'a' <= w[k] <= 'z'
    ensures forall k :: 0 <= k < |w| ==> !IsWhitespace(w[k])
  {
  }

  /** An id is its own slug: slugging is idempotent. */
  lemma SlugIdempotent(tableName: string)
    ensures Slug(Slug(tableName)) == Slug(tableName)
  {
    var id := Slug(tableName);
    assert Lower(id) == id;
  }

  // ----- Nodes coming back from the model -----

  /** `{ ...node, type: 'custom' }`. */
  function AsCustom(n: Node): Node {
    n.(nodeType := Some("custom"))
  }

  /** `data.nodes.map((node) => ({ ...node, type: 'custom' }))`. */
  function Customized(nodes: seq<Node>): (r: seq<Node>)
    ensures |r| == |nodes|
    ensures forall i :: 0 <= i < |nodes| ==> r[i].nodeType == Some("custom")
    ensures forall i :: 0 <= i < |nodes| ==> r[i].id == nodes[i].id && r[i].data == nodes[i].data && r[i].position == nodes[i].position
  {
    seq(|nodes|, i requires 0 <= i < |nodes| => AsCustom(nodes[i]))
  }

  /** Retyping keeps every id, so it neither makes nor breaks referential integrity. */
  lemma CustomizedKeepsIds(nodes: seq<Node>, edges: seq<Edge>)
    ensures NodeIds(Customized(nodes)) == NodeIds(nodes)
    ensures EdgesReferenceNodes(Customized(nodes), edges) <==> EdgesReferenceNodes(nodes, edges)
  {
    var r := Customized(nodes);
    forall id | id in NodeIds(nodes) ensures id in NodeIds(r) {
      var i :| 0 <= i < |nodes| && nodes[i].id == id;
      assert r[i] in r;
    }
    forall id | id in NodeIds(r) ensures id in NodeIds(nodes) {
      var i :| 0 <= i < |r| && r[i].id == id;
      assert nodes[i] in nodes;
    }
  }

  /** Retyping twice is retyping once. */
  lemma CustomizedIdempotent(nodes: seq<Node>)
    ensures Customized(Customized(nodes)) == Customized(nodes)
  {
  }

  /** The node `handleAddNode(tableName, schema)` creates; `Math.random` placed it at `position`. */
  function NewNode(tableName: string, schema: seq<Column>, position: Position): (n: Node)
    ensures n.id == Slug(tableName) && n.nodeType == Some("custom")
    ensures n.data == NodeData(tableName, schema) && n.position == Some(position)
  {
    Node(Slug(tableName), Some("custom"), NodeData(tableName, schema), Some(position))
  }

  /** What the server answered a generate or merge request: not ok, ok without a
      `nodes` array (so `data.nodes.map` throws), or ok with a diagram. */
  datatype Fetched = NotOk | NoNodes | Diagram(nodes: seq<Node>, edges: seq<Edge>)

  // ----- `fetchAIResponse` -----

  const ManualNote: string := " this is a new node/nodes that were manually added "

  /** The message `fetchAIResponse(input, manualNodes)` sends; `stringify` is `JSON.stringify`. */
  function OutgoingMessage(input: string, manualNodes: seq<Node>, stringify: seq<Node> -> string): (message: string)
    ensures input <= message
    ensures message == input <==> |manualNodes| == 0
    ensures |manualNodes| > 0 ==> message[|input|..] == ManualNote + stringify(manualNodes)
  {
    if |manualNodes| > 0 then input + ManualNote + stringify(manualNodes) else input
  }

  predicate IsDigit(c: char) {
    '0' <= c <= '9'
  }

  /** A digit, a dot and a white-space character open `s`: a numbered-item marker. */
  predicate ItemAt(s: string) {
    |s| >= 3 && IsDigit(s[0]) && s[1] == '.' && IsWhitespace(s[2])
  }

  /** `s` with a line break in front of every position where a marker starts. */
  function BreakBeforeEach(s: string): string
    decreases |s|
  {
    if s == [] then [] else (if ItemAt(s) then "\n" else "") + [s[0]] + BreakBeforeEach(s[1..])
  }

  /** `s.replace(/\d\.\s/g, '\n$&')`: a line break before every digit, dot and white
      space, matched left to right without overlap. */
  function BreakBeforeItems(s: string): (r: string)
    ensures |r| >= |s|
    decreases |s|
  {
    if s == [] then []
    else if ItemAt(s) then "\n" + s[..3] + BreakBeforeItems(s[3..])
    else [s[0]] + BreakBeforeItems(s[1..])
  }

  /** Two markers can never overlap, so matching left to right puts a break before
      every marker in `s` and nowhere else. */
  lemma {:induction false} BreaksBeforeEveryItem(s: string)
    ensures BreakBeforeItems(s) == BreakBeforeEach(s)
    decreases |s|
  {
    if s == [] {
    } else if ItemAt(s) {
      MarkerStep(s);
      BreaksBeforeEveryItem(s[3..]);
    } else {
      BreaksBeforeEveryItem(s[1..]);
    }
  }

  /** The break before a marker is the only one among its three characters. */
  lemma MarkerStep(s: string)
    requires ItemAt(s)
    ensures BreakBeforeEach(s) == "\n" + s[..3] + BreakBeforeEach(s[3..])
  {
    assert !IsDigit(s[1]) && !IsDigit(s[2]);
    var tail := BreakBeforeEach(s[3..]);
    assert BreakBeforeEach(s[2..]) == [s[2]] + tail by {
      assert !ItemAt(s[2..]) && s[2..][1..] == s[3..];
    }
    assert BreakBeforeEach(s[1..]) == [s[1]] + ([s[2]] + tail) by {
      assert !ItemAt(s[1..]) && s[1..][1..] == s[2..];
    }
    assert s[..3] == [s[0]] + [s[1]] + [s[2]];
    assert "\n" + [s[0]] + ([s[1]] + ([s[2]] + tail)) == "\n" + s[..3] + tail;
  }

  /** Breaking before markers adds only white space. */
  lemma {:induction false} BreakBeforeEachKeepsVisible(s: string)
    ensures Visible(BreakBeforeEach(s)) == Visible(s)
    decreases |s|
  {
    if s != [] {
      var mark: string := if ItemAt(s) then "\n" else "";
      var head := mark + [s[0]];
      assert BreakBeforeEach(s) == head + BreakBeforeEach(s[1..]);
      BreakBeforeEachKeepsVisible(s[1..]);
      VisibleAppend(head, BreakBeforeEach(s[1..]));
      assert Visible(head) == Visible([s[0]]) by {
        VisibleAppend(mark, [s[0]]);
        VisibleOfSpace(mark);
      }
      assert Visible(s) == Visible([s[0]]) + Visible(s[1..]) by {
        VisibleAppend([s[0]], s[1..]);
        assert [s[0]] + s[1..] == s;
      }
    }
  }

  /** Breaking before numbered items only adds line breaks: the text is otherwise unchanged. */
  lemma {:induction false} BreaksOnlyAdded(s: string)
    ensures Removed(BreakBeforeItems(s), '\n') == Removed(s, '\n')
    decreases |s|
  {
    if s != [] {
      if ItemAt(s) {
        BreaksOnlyAdded(s[3..]);
        assert "\n" == ['\n'];
        BreakBeforeItemStep(s, BreakBeforeItems(s[3..]), '\n');
      } else {
        BreaksOnlyAdded(s[1..]);
        PlainCharStep(s, BreakBeforeItems(s[1..]), '\n');
      }
    }
  }

  lemma BreakBeforeItemStep(s: string, rest: string, c: char)
    requires |s| >= 3 && Removed(rest, c) == Removed(s[3..], c)
    ensures Removed([c] + s[..3] + rest, c) == Removed(s, c)
  {
    var item := s[..3];
    assert Removed([c], c) == [] by {
      assert [c][1..] == [];
    }
    calc {
      Removed([c] + item + rest, c);
      { RemovedAppend([c] + item, rest, c); }
      Removed([c] + item, c) + Removed(rest, c);
      { RemovedAppend([c], item, c); }
      Removed(item, c) + Removed(s[3..], c);
      { RemovedAppend(item, s[3..], c); assert item + s[3..] == s; }
      Removed(s, c);
    }
  }

  lemma PlainCharStep(s: string, rest: string, c: char)
    requires |s| >= 1 && Removed(rest, c) == Removed(s[1..], c)
    ensures Removed([s[0]] + rest, c) == Removed(s, c)
  {
    RemovedAppend([s[0]], rest, c);
    RemovedAppend([s[0]], s[1..], c);
    assert s == [s[0]] + s[1..];
  }

  /** Trimming a text without a character leaves a text without it. */
  lemma TrimKeepsAbsent(s: string, c: char)
    requires c !in s
    ensures c !in Trim(s)
  {
    var i := SpaceEnd(s, 0);
    var r := Trim(s);
    assert r == s[i..i + |r|];
  }

  function TrimmedAll(lines: seq<string>): (r: seq<string>)
    ensures |r| == |lines| && forall i :: 0 <= i < |lines| ==> r[i] == Trim(lines[i])
  {
    seq(|lines|, i requires 0 <= i < |lines| => Trim(lines[i]))
  }

  /** The lines of the formatted reply, before they are joined: none is empty or
      untrimmed or spans lines. */
  function ReplyLines(reply: string): (lines: seq<string>)
    ensures forall line :: line in lines ==> line != "" && IsTrimmed(line) && '\n' !in line
  {
    var pieces := SplitRuns(Trim(BreakBeforeItems(reply)), '\n');
    TrimmedLines(pieces, '\n');
    Filter(TrimmedAll(pieces), (line: string) => line != "")
  }

  /** Together the lines hold every character of the reply that is not white space,
      in order, and no other. */
  lemma ReplyLinesKeepText(reply: string)
    ensures Visible(Join(ReplyLines(reply), "")) == Visible(reply)
  {
    var broken := BreakBeforeItems(reply);
    var pieces := SplitRuns(Trim(broken), '\n');
    assert Visible(broken) == Visible(reply) by {
      BreaksBeforeEveryItem(reply);
      BreakBeforeEachKeepsVisible(reply);
    }
    TrimKeepsVisible(broken);
    SplitRunsKeepsText(Trim(broken), '\n');
    TrimmedAllKeepsVisible(pieces);
    DropEmptyKeepsJoin(TrimmedAll(pieces));
  }

  /** Trimming every piece leaves the visible text of their concatenation. */
  lemma {:induction false} TrimmedAllKeepsVisible(pieces: seq<string>)
    ensures Visible(Join(TrimmedAll(pieces), "")) == Visible(Join(pieces, ""))
    decreases |pieces|
  {
    if pieces != [] {
      var first, rest := pieces[0], pieces[1..];
      TrimmedAllKeepsVisible(rest);
      assert TrimmedAll(pieces) == [Trim(first)] + TrimmedAll(rest);
      assert pieces == [first] + rest;
      VisibleOfConcat(Trim(first), TrimmedAll(rest));
      VisibleOfConcat(first, rest);
      TrimKeepsVisible(first);
    }
  }

  /** The visible text of a concatenation, one piece at a time. */
  lemma VisibleOfConcat(first: string, rest: seq<string>)
    ensures Visible(Join([first] + rest, "")) == Visible(first) + Visible(Join(rest, ""))
  {
    JoinCons(first, rest, "");
    if rest != [] {
      VisibleAppend(first + "", Join(rest, ""));
      assert first + "" == first;
    } else {
      assert Join(rest, "") == "";
      assert Visible(first) + [] == Visible(first);
    }
  }

  /** Dropping empty pieces does not change their concatenation. */
  lemma {:induction false} DropEmptyKeepsJoin(pieces: seq<string>)
    ensures Join(Filter(pieces, (line: string) => line != ""), "") == Join(pieces, "")
    decreases |pieces|
  {
    if pieces != [] {
      var rest := pieces[1..];
      var keep := (line: string) => line != "";
      DropEmptyKeepsJoin(rest);
      JoinCons(pieces[0], rest, "");
      assert pieces == [pieces[0]] + rest;
      if pieces[0] != "" {
        assert Filter(pieces, keep) == [pieces[0]] + Filter(rest, keep);
        JoinCons(pieces[0], Filter(rest, keep), "");
      } else {
        assert Filter(pieces, keep) == Filter(rest, keep);
      }
    }
  }

  /** Trimming pieces free of `c` gives trimmed pieces free of `c`. */
  lemma TrimmedLines(pieces: seq<string>, c: char)
    requires forall p :: p in pieces ==> c !in p
    ensures forall line :: line in TrimmedAll(pieces) ==> IsTrimmed(line) && c !in line
  {
    var trimmed := TrimmedAll(pieces);
    forall i | 0 <= i < |pieces| ensures c !in trimmed[i] {
      assert pieces[i] in pieces;
      TrimKeepsAbsent(pieces[i], c);
    }
  }

  /** The `formattedContent` of `fetchAIResponse`: break before numbered items, trim,
      split at runs of line breaks, trim each line, drop empty ones, join with `\n`. */
  function FormatReply(reply: string): (formatted: string)
    ensures formatted == Join(ReplyLines(reply), "\n")
  {
    var pieces := SplitRuns(Trim(BreakBeforeItems(reply)), '\n');
    Join(Filter(TrimmedAll(pieces), (line: string) => line != ""), "\n")
  }

  /** The formatted reply has no empty line and every line is trimmed: read back line
      by line, it is exactly its non-empty trimmed lines. */
  lemma FormatReplyLines(reply: string)
    ensures var lines := ReplyLines(reply);
      (lines == [] ==> FormatReply(reply) == "")
      && (lines != [] ==> Split(FormatReply(reply), '\n') == lines)
  {
    LinesRoundTrip(ReplyLines(reply));
  }

  /** Formatting moves white space only: every other character of the reply is kept,
      in order, and none is added. */
  lemma FormatReplyKeepsText(reply: string)
    ensures Visible(FormatReply(reply)) == Visible(reply)
  {
    VisibleJoin(ReplyLines(reply), "\n");
    ReplyLinesKeepText(reply);
  }

  lemma LinesRoundTrip(lines: seq<string>)
    requires forall line :: line in lines ==> '\n' !in line
    ensures lines == [] ==> Join(lines, "\n") == ""
    ensures lines != [] ==> Split(Join(lines, "\n"), '\n') == lines
  {
    if lines != [] {
      assert "\n" == ['\n'];
      SplitJoin(lines, '\n');
    }
  }

  /** A formatted reply has a line break wherever its lines meet and nowhere else. */
  lemma FormatReplyBreaks(reply: string)
    requires ReplyLines(reply) != []
    ensures Count(FormatReply(reply), '\n') == |ReplyLines(reply)| - 1
  {
    assert "\n" == ['\n'];
    CountJoin(ReplyLines(reply), '\n');
  }

  // ----- The hook's state -----

  class DataModelServices {
    var nodes: seq<Node>
    var edges: seq<Edge>
    var loading: bool
    var isFirstAdd: bool
    var manualNodes: seq<Node>
    var aiNodes: seq<Node>

    constructor ()
      ensures nodes == InitialNodes.InitialNodes && edges == InitialEdges
      ensures !loading && isFirstAdd && manualNodes == [] && aiNodes == []
    {
      nodes := InitialNodes.InitialNodes;
      edges := InitialEdges;
      loading := false;
      isFirstAdd := true;
      manualNodes := [];
      aiNodes := [];
    }

    /** Every node on screen is a model table or a hand-added one, in that order. */
    predicate ShowsAll()
      reads this
    {
      nodes == aiNodes + manualNodes
    }

    /** `handleAddNode(tableName, schema)`. */
    method HandleAddNode(tableName: string, schema: seq<Column>, position: Position)
      modifies this
      ensures manualNodes == old(manualNodes) + [NewNode(tableName, schema, position)]
      ensures nodes == aiNodes + manualNodes && ShowsAll()
      ensures !isFirstAdd
      ensures aiNodes == old(aiNodes) && edges == old(edges) && loading == old(loading)
    {
      var newNode := NewNode(tableName, schema, position);
      var updatedManualNodes := manualNodes + [newNode];
      nodes := aiNodes + updatedManualNodes;
      manualNodes := updatedManualNodes;
      isFirstAdd := false;
    }

    /** What `generateDataModel` and `mergeDataModel` do once the server has answered:
        `ok` is false when the handler throws. */
    method ApplyFetched(response: Fetched) returns (ok: bool)
      modifies this
      ensures ok <==> response.Diagram?
      ensures response.Diagram? ==>
        && aiNodes == Customized(response.nodes) && nodes == aiNodes
        && edges == response.edges && manualNodes == [] && !isFirstAdd && ShowsAll()
      ensures !response.Diagram? ==>
        && nodes == old(nodes) && edges == old(edges) && manualNodes == old(manualNodes)
        && aiNodes == old(aiNodes) && isFirstAdd == old(isFirstAdd)
      ensures !loading
    {
      loading := true;
      if response.Diagram? {
        var generated := Customized(response.nodes);
        aiNodes := generated;
        manualNodes := [];
        nodes := generated;
        edges := response.edges;
        isFirstAdd := false;
        ok := true;
      } else {
        ok := false;
      }
      loading := false;
    }

    /** `generateDataModel()`. */
    method GenerateDataModel(response: Fetched) returns (ok: bool)
      modifies this
      ensures ok <==> response.Diagram?
      ensures response.Diagram? ==>
        aiNodes == Customized(response.nodes) && nodes == aiNodes && edges == response.edges && manualNodes == [] && !isFirstAdd
      ensures !response.Diagram? ==>
        nodes == old(nodes) && edges == old(edges) && manualNodes == old(manualNodes) && aiNodes == old(aiNodes) && isFirstAdd == old(isFirstAdd)
      ensures !loading
    {
      ok := ApplyFetched(response);
    }

    /** `mergeDataModel()`. */
    method MergeDataModel(response: Fetched) returns (ok: bool)
      modifies this
      ensures ok <==> response.Diagram?
      ensures response.Diagram? ==>
        aiNodes == Customized(response.nodes) && nodes == aiNodes && edges == response.edges && manualNodes == [] && !isFirstAdd
      ensures !response.Diagram? ==>
        nodes == old(nodes) && edges == old(edges) && manualNodes == old(manualNodes) && aiNodes == old(aiNodes) && isFirstAdd == old(isFirstAdd)
      ensures !loading
    {
      ok := ApplyFetched(response);
    }

    /** `resetNodesAndEdges()`: the model's tables are kept in `aiNodes`. */
    method ResetNodesAndEdges()
      modifies this
      ensures nodes == [] && edges == [] && manualNodes == [] && isFirstAdd
      ensures aiNodes == old(aiNodes) && loading == old(loading)
    {
      nodes := [];
      edges := [];
      manualNodes := [];
      isFirstAdd := true;
    }
  }
}
