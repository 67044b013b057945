/** The table editor (frontend/src/components/SchemaEditor.tsx): a table name and a
    list of editable columns, each with an id, submitted as a table of name/type
    columns. `Date.now()` ids are supplied by the caller as `freshId`. */
module SchemaEditor {
  import opened Wrappers
  import opened Seqs
  import opened Diagram

  /** A column being edited. */
  datatype EditorColumn = EditorColumn(id: int, name: string, dataType: string)

  /** The field `handleColumnChange` sets: `'name'` or `'type'`. */
  datatype Field = Name | Type

  /** What `handleSubmit` did: raised the alert, or called `onSubmit`. */
  datatype SubmitResult = Alerted | Submitted(tableName: string, schema: seq<Column>)

  /** `{ ...col, [field]: value }`. */
  function WithField(c: EditorColumn, field: Field, value: string): (r: EditorColumn)
    ensures r.id == c.id
    ensures field == Name ==> r.name == value && r.dataType == c.dataType
    ensures field == Type ==> r.dataType == value && r.name == c.name
  {
    match field
    case Name => c.(name := value)
    case Type => c.(dataType := value)
  }

  /** The columns after `handleColumnChange(id, field, value)`. */
  function ColumnsChanged(cols: seq<EditorColumn>, id: int, field: Field, value: string): (r: seq<EditorColumn>)
    ensures |r| == |cols|
    ensures forall i :: 0 <= i < |cols| ==> r[i] == if cols[i].id == id then WithField(cols[i], field, value) else cols[i]
  {
    seq(|cols|, i requires 0 <= i < |cols| => if cols[i].id == id then WithField(cols[i], field, value) else cols[i])
  }

  /** The columns after `handleDeleteColumn(id)`. */
  function ColumnsWithout(cols: seq<EditorColumn>, id: int): (r: seq<EditorColumn>)
    ensures forall c :: c in r <==> c in cols && c.id != id
    ensures IsSubsequence(r, cols)
    ensures forall c :: multiset(r)[c] == if c.id != id then multiset(cols)[c] else 0
  {
    Filter(cols, (c: EditorColumn) => c.id != id)
  }

  /** `columns.map(({ name, type }) => ({ name, type }))`: ids dropped, no constraints. */
  function Projected(cols: seq<EditorColumn>): (schema: seq<Column>)
    ensures |schema| == |cols|
    ensures forall i :: 0 <= i < |cols| ==> schema[i] == Column(cols[i].name, cols[i].dataType, None)
  {
    seq(|cols|, i requires 0 <= i < |cols| => Column(cols[i].name, cols[i].dataType, None))
  }

  predicate DistinctIds(cols: seq<EditorColumn>) {
    forall i, j :: 0 <= i < j < |cols| ==> cols[i].id != cols[j].id
  }

  /** Setting the same field to the same value twice is setting it once. */
  lemma ChangeIdempotent(cols: seq<EditorColumn>, id: int, field: Field, value: string)
    ensures ColumnsChanged(ColumnsChanged(cols, id, field, value), id, field, value) == ColumnsChanged(cols, id, field, value)
  {
    var once := ColumnsChanged(cols, id, field, value);
    var twice := ColumnsChanged(once, id, field, value);
    forall i | 0 <= i < |cols| ensures twice[i] == once[i] {
      if cols[i].id == id {
        assert once[i].id == id;
      }
    }
  }

  /** A change touches only the columns it names: deleting them afterwards leaves the
      same columns as deleting them straight away. */
  lemma {:induction false} ChangeThenDelete(cols: seq<EditorColumn>, id: int, field: Field, value: string)
    ensures ColumnsWithout(ColumnsChanged(cols, id, field, value), id) == ColumnsWithout(cols, id)
    decreases |cols|
  {
    var keep := (c: EditorColumn) => c.id != id;
    if cols != [] {
      var changed := ColumnsChanged(cols, id, field, value);
      ChangeThenDelete(cols[1..], id, field, value);
      assert changed[1..] == ColumnsChanged(cols[1..], id, field, value);
      assert changed[0].id == cols[0].id;
      assert Filter(changed, keep) == (if keep(changed[0]) then [changed[0]] else []) + Filter(changed[1..], keep);
      assert Filter(cols, keep) == (if keep(cols[0]) then [cols[0]] else []) + Filter(cols[1..], keep);
    }
  }

  /** Deleting an id no column has changes nothing. */
  lemma DeleteAbsent(cols: seq<EditorColumn>, id: int)
    requires forall c :: c in cols ==> c.id != id
    ensures ColumnsWithout(cols, id) == cols
  {
    FilterAllKept(cols, (c: EditorColumn) => c.id != id);
  }

  /** An added column with a fresh id keeps the ids distinct. */
  lemma AddKeepsIdsDistinct(cols: seq<EditorColumn>, freshId: int)
    requires DistinctIds(cols)
    requires forall c :: c in cols ==> c.id != freshId
    ensures DistinctIds(cols + [EditorColumn(freshId, "", "UUID")])
  {
    var grown := cols + [EditorColumn(freshId, "", "UUID")];
    forall i, j | 0 <= i < j < |grown| ensures grown[i].id != grown[j].id {
      if j == |cols| {
        assert grown[i] in cols;
      }
    }
  }

  /** The component's `tableName` and `columns` state. */
  class Editor {
    var tableName: string
    var columns: seq<EditorColumn>

    constructor ()
      ensures tableName == "" && columns == []
    {
      tableName := "";
      columns := [];
    }

    /** The table-name input's `onChange`. */
    method SetTableName(value: string)
      modifies this
      ensures tableName == value && columns == old(columns)
    {
      tableName := value;
    }

    /** `handleAddColumn()`. */
    method AddColumn(freshId: int)
      modifies this
      ensures columns == old(columns) + [EditorColumn(freshId, "", "UUID")]
      ensures tableName == old(tableName)
    {
      columns := columns + [EditorColumn(freshId, "", "UUID")];
    }

    /** `handleColumnChange(id, field, value)`. */
    method ChangeColumn(id: int, field: Field, value: string)
      modifies this
      ensures columns == ColumnsChanged(old(columns), id, field, value)
      ensures tableName == old(tableName)
    {
      columns := ColumnsChanged(columns, id, field, value);
    }

    /** `handleDeleteColumn(id)`. */
    method DeleteColumn(id: int)
      modifies this
      ensures columns == ColumnsWithout(old(columns), id)
      ensures tableName == old(tableName)
    {
      columns := ColumnsWithout(columns, id);
    }

    /** `handleSubmit()`: an empty name raises the alert and changes nothing; otherwise
        `onSubmit` gets the name and the projected columns, and the form is reset. */
    method Submit() returns (result: SubmitResult)
      modifies this
      ensures old(tableName) == "" ==> result == Alerted && tableName == old(tableName) && columns == old(columns)
      ensures old(tableName) != "" ==>
        result == Submitted(old(tableName), Projected(old(columns))) && tableName == "" && columns == []
    {
      if tableName == "" {
        return Alerted;
      }
      var schema := Projected(columns);
      result := Submitted(tableName, schema);
      tableName := "";
      columns := [];
    }
  }
}
