/** The `CREATE TABLE` text a table node shows and copies (`generateSQL` in
    frontend/src/components/CustomNode.tsx). */
module CustomNode {
  import opened Wrappers
  import opened Strings
  import opened Diagram

  /** `col.constraints` is truthy: present and not the empty string. */
  predicate HasConstraints(c: Column) {
    c.constraints.Some? && c.constraints.value != ""
  }

  /** `${col.name} ${col.type}${constraints}`. */
  function ColumnSql(c: Column): string {
    c.name + " " + c.dataType + (if HasConstraints(c) then " " + c.constraints.value else "")
  }

  function ColumnSqls(schema: seq<Column>): (r: seq<string>)
    ensures |r| == |schema| && forall i :: 0 <= i < |schema| ==> r[i] == ColumnSql(schema[i])
  {
    seq(|schema|, i requires 0 <= i < |schema| => ColumnSql(schema[i]))
  }

  /** `generateSQL()` of a node whose data is `data`. */
  function GenerateSql(data: NodeData): string {
    "CREATE TABLE " + data.tableName + " (\n  " + Join(ColumnSqls(data.schema), ",\n  ") + "\n);"
  }

  /** The column lines of the statement as a reader sees them: each column indented
      by two spaces and followed by a comma except the last; a lone indentation
      when there is no column. */
  function ColumnLines(cols: seq<string>): (lines: seq<string>)
    ensures |lines| == if |cols| == 0 then 1 else |cols|
    ensures |cols| == 0 ==> lines == ["  "]
    ensures forall i :: 0 <= i < |cols| ==> lines[i] == "  " + cols[i] + (if i < |cols| - 1 then "," else "")
    decreases |cols|
  {
    if |cols| == 0 then ["  "]
    else if |cols| == 1 then ["  " + cols[0]]
    else ["  " + cols[0] + ","] + ColumnLines(cols[1..])
  }

  /** The statement line by line: the header, the column lines, and the closing `);`. */
  function SqlLines(data: NodeData): (lines: seq<string>)
    ensures |lines| == |ColumnLines(ColumnSqls(data.schema))| + 2
  {
    ["CREATE TABLE " + data.tableName + " ("] + ColumnLines(ColumnSqls(data.schema)) + [");"]
  }

  /** The indented join of the columns is the join of the column lines. */
  lemma {:induction false} IndentedColumns(cols: seq<string>)
    ensures "  " + Join(cols, ",\n  ") == Join(ColumnLines(cols), "\n")
    decreases |cols|
  {
    if |cols| == 0 {
      assert "  " + "" == "  ";
    } else if |cols| >= 2 {
      IndentedColumns(cols[1..]);
      var rest := ColumnLines(cols[1..]);
      assert ColumnLines(cols) == ["  " + cols[0] + ","] + rest;
      assert Join(ColumnLines(cols), "\n") == "  " + cols[0] + "," + "\n" + Join(rest, "\n");
      assert "  " + Join(cols, ",\n  ") == "  " + cols[0] + ",\n  " + Join(cols[1..], ",\n  ");
    }
  }

  /** `generateSQL()` is its lines joined by line breaks. */
  lemma GenerateSqlIsLines(data: NodeData)
    ensures GenerateSql(data) == Join(SqlLines(data), "\n")
  {
    var cols := ColumnSqls(data.schema);
    var lines := ColumnLines(cols);
    var head := "CREATE TABLE " + data.tableName + " (";
    IndentedColumns(cols);
    JoinAppend([head], lines, "\n");
    JoinAppend([head] + lines, [");"], "\n");
    assert Join([head], "\n") == head && Join([");"], "\n") == ");";
    SqlPieces(data.tableName, Join(cols, ",\n  "));
  }

  lemma SqlPieces(tableName: string, body: string)
    ensures "CREATE TABLE " + tableName + " (\n  " + body + "\n);"
         == ("CREATE TABLE " + tableName + " (") + "\n" + ("  " + body) + "\n" + ");"
  {
    assert " (\n  " == " (" + "\n" + "  ";
    assert "\n);" == "\n" + ");";
  }

  /** No name, type or constraint holds a line break. */
  predicate SingleLineData(data: NodeData) {
    && '\n' !in data.tableName
    && forall c :: c in data.schema ==>
         '\n' !in c.name && '\n' !in c.dataType && (c.constraints.Some? ==> '\n' !in c.constraints.value)
  }

  lemma SqlLinesSingle(data: NodeData)
    requires SingleLineData(data)
    ensures forall line :: line in SqlLines(data) ==> '\n' !in line
  {
    var cols := ColumnSqls(data.schema);
    var lines := ColumnLines(cols);
    forall i | 0 <= i < |lines| ensures '\n' !in lines[i] {
      if i < |cols| {
        assert data.schema[i] in data.schema;
        assert '\n' !in ColumnSql(data.schema[i]);
      }
    }
  }

  /** For single-line names, types and constraints, the statement read line by line
      is the header, one line per column in schema order, and `);`. */
  lemma SqlReadsLineByLine(data: NodeData)
    requires SingleLineData(data)
    ensures Split(GenerateSql(data), '\n') == SqlLines(data)
  {
    GenerateSqlIsLines(data);
    SqlLinesSingle(data);
    assert "\n" == ['\n'];
    SplitJoin(SqlLines(data), '\n');
  }

  /** With n >= 1 single-line columns the statement has exactly n + 2 lines: it holds
      n + 1 line breaks. */
  lemma SqlLineCount(data: NodeData)
    requires SingleLineData(data) && |data.schema| >= 1
    ensures Count(GenerateSql(data), '\n') == |data.schema| + 1
  {
    GenerateSqlIsLines(data);
    SqlLinesSingle(data);
    assert "\n" == ['\n'];
    CountJoin(SqlLines(data), '\n');
  }

  /** A table without columns still gets the indented empty line. */
  lemma EmptySchemaSql(tableName: string)
    ensures GenerateSql(NodeData(tableName, [])) == "CREATE TABLE " + tableName + " (\n  \n);"
  {
    assert ColumnSqls([]) == [];
  }

  /** Splitting a column's text at spaces gives back its name, its type and the words
      of its constraints, when name and type have no space. */
  lemma ColumnWords(c: Column)
    requires ' ' !in c.name && ' ' !in c.dataType
    ensures Split(ColumnSql(c), ' ')
         == [c.name, c.dataType] + (if HasConstraints(c) then Split(c.constraints.value, ' ') else [])
  {
    if HasConstraints(c) {
      ConstrainedColumnWords(c);
    } else {
      PlainColumnWords(c);
    }
  }

  lemma ConstrainedColumnWords(c: Column)
    requires ' ' !in c.name && ' ' !in c.dataType && HasConstraints(c)
    ensures Split(ColumnSql(c), ' ') == [c.name, c.dataType] + Split(c.constraints.value, ' ')
  {
    WordsAround(c.name, c.dataType, c.constraints.value);
    SpacedWords(c.name, c.dataType, c.constraints.value);
  }

  lemma WordsAround(name: string, dataType: string, constraints: string)
    requires ' ' !in name && ' ' !in dataType
    ensures Split(name + [' '] + (dataType + [' '] + constraints), ' ') == [name, dataType] + Split(constraints, ' ')
  {
    SplitLead(dataType, constraints, ' ');
    SplitLead(name, dataType + [' '] + constraints, ' ');
  }

  lemma SpacedWords(name: string, dataType: string, constraints: string)
    ensures name + " " + dataType + (" " + constraints) == name + [' '] + (dataType + [' '] + constraints)
  {
    assert " " == [' '];
  }

  lemma PlainColumnWords(c: Column)
    requires ' ' !in c.name && ' ' !in c.dataType && !HasConstraints(c)
    ensures Split(ColumnSql(c), ' ') == [c.name, c.dataType] + []
  {
    SplitWhole(c.dataType, ' ');
    SplitLead(c.name, c.dataType, ' ');
    assert ColumnSql(c) == c.name + [' '] + c.dataType;
  }
}
