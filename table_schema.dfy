/** The time-series table schema: an ordered column list kept together with a
    name->position index, its lookups, its in-place `add_column`, and the
    field-only views derived from it. */
module TableSchemas {
  import opened Wrappers
  import opened Collections
  import opened ColumnTypes

  function Names(cols: seq<TableColumn>): seq<string>
  {
    seq(|cols|, i requires 0 <= i < |cols| => cols[i].name)
  }

  function Ids(cols: seq<TableColumn>): seq<ColumnId>
  {
    seq(|cols|, i requires 0 <= i < |cols| => cols[i].id)
  }

  /** A column that is neither a tag nor the time column. */
  predicate IsFieldColumn(c: TableColumn)
  {
    c.columnType != Time && c.columnType != Tag
  }

  /** The field columns of `cols`, in their original order. */
  function FieldColumns(cols: seq<TableColumn>): seq<TableColumn>
  {
    if |cols| == 0 then []
    else FieldColumns(cols[..|cols| - 1]) + (if IsFieldColumn(cols[|cols| - 1]) then [cols[|cols| - 1]] else [])
  }

  /** The ids of the field columns of `cols`, in column order. */
  function FieldIds(cols: seq<TableColumn>): seq<ColumnId>
  {
    Ids(FieldColumns(cols))
  }

  /** Filtering distributes over concatenation: the field columns of a list
      are those of its first part followed by those of its second part. */
  lemma {:induction false} FieldColumnsConcat(a: seq<TableColumn>, b: seq<TableColumn>)
    ensures FieldColumns(a + b) == FieldColumns(a) + FieldColumns(b)
  {
    if |b| > 0 {
      var b' := b[..|b| - 1];
      assert (a + b)[..|a + b| - 1] == a + b';
      FieldColumnsConcat(a, b');
    } else {
      assert a + b == a;
    }
  }

  /** The field columns are exactly the columns whose type is `Field(_)`:
      every one of them is a field column of the list, every field column of
      the list is among them, and there are never more of them than columns. */
  lemma {:induction false} FieldColumnsMembers(cols: seq<TableColumn>)
    ensures |FieldColumns(cols)| <= |cols|
    ensures forall c :: c in FieldColumns(cols) ==> c in cols && c.columnType.Field?
    ensures forall i :: 0 <= i < |cols| && cols[i].columnType.Field? ==> cols[i] in FieldColumns(cols)
  {
    if |cols| > 0 {
      var init := cols[..|cols| - 1];
      FieldColumnsMembers(init);
      assert cols == init + [cols[|cols| - 1]];
      forall i | 0 <= i < |cols| && cols[i].columnType.Field?
        ensures cols[i] in FieldColumns(cols)
      {
        if i < |cols| - 1 {
          assert cols[i] == init[i];
        }
      }
    }
  }

  /** A table schema whose columns, lookups and field views are derived as in
      `TskvTableSchema`. */
  class TskvTableSchema {
    var db: string
    var name: string
    var schemaId: nat
    var columns: seq<TableColumn>
    var columnsIndex: map<string, nat>

    /** The index is always the one built from the column list, position by
        position, a later duplicate name overwriting an earlier one. */
    ghost predicate Valid()
      reads this
    {
      columnsIndex == LastIndex(Names(columns))
    }

    /** `TskvTableSchema::new`: schema id 0 and an index built from the list. */
    constructor (db: string, name: string, columns: seq<TableColumn>)
      ensures Valid()
      ensures this.db == db && this.name == name && schemaId == 0 && this.columns == columns
    {
      this.db := db;
      this.name := name;
      schemaId := 0;
      this.columns := columns;
      columnsIndex := LastIndex(Names(columns));
    }

    /** `Default for TskvTableSchema`. */
    constructor Default()
      ensures Valid()
      ensures db == "public" && name == "" && schemaId == 0 && columns == []
    {
      db := "public";
      name := "";
      schemaId := 0;
      columns := [];
      columnsIndex := map[];
    }

    /** `add_column`: appends `col` unless a column of that name exists, in
        which case nothing changes. */
    method AddColumn(col: TableColumn)
      requires Valid()
      modifies this
      ensures Valid()
      ensures db == old(db) && name == old(name) && schemaId == old(schemaId)
      ensures col.name in old(Names(columns)) ==> columns == old(columns) && columnsIndex == old(columnsIndex)
      ensures col.name !in old(Names(columns)) ==>
                columns == old(columns) + [col] && columnsIndex == old(columnsIndex)[col.name := old(|columns|)]
      ensures old(Distinct(Names(columns))) ==> Distinct(Names(columns))
    {
      LastIndexSpec(Names(columns));
      if col.name !in columnsIndex {
        var before := columns;
        columns := columns + [col];
        assert Names(columns)[..|before|] == Names(before);
        columnsIndex := columnsIndex[col.name := |columns| - 1];
      }
    }

    /** `column_index`: the position the index records for `name`. It is
        defined exactly for the names of the columns, is always in bounds and
        names a column of that name, the last one if the name repeats. */
    function ColumnIndex(name: string): (r: Option<nat>)
      reads this
      requires Valid()
      ensures r.Some? <==> name in Names(columns)
      ensures r.Some? ==> r.value < |columns| && columns[r.value].name == name
      ensures r.Some? ==> forall j :: r.value < j < |columns| ==> columns[j].name != name
    {
      LastIndexSpec(Names(columns));
      assert forall j :: 0 <= j < |columns| ==> Names(columns)[j] == columns[j].name;
      if name in columnsIndex then Some(columnsIndex[name]) else None
    }

    /** `column`: the column of that name. The position read from the index
        is proved in bounds, so the list access needs no unchecked read. */
    function Column(name: string): (r: Option<TableColumn>)
      reads this
      requires Valid()
      ensures r.Some? <==> name in Names(columns)
      ensures r.Some? ==> r.value in columns && r.value.name == name
    {
      LastIndexSpec(Names(columns));
      if name in columnsIndex then Some(columns[columnsIndex[name]]) else None
    }

    /** `column_by_index`: the column at position `idx`, if there is one. */
    function ColumnByIndex(idx: nat): (r: Option<TableColumn>)
      reads this
      ensures r.None? <==> idx >= |columns|
      ensures r.Some? ==> r.value == columns[idx]
    {
      if idx < |columns| then Some(columns[idx]) else None
    }

    /** `columns`: the column list, into which every index entry points at a
        column of the entry's name. */
    function Columns(): (cs: seq<TableColumn>)
      reads this
      requires Valid()
      ensures forall n :: n in columnsIndex ==> columnsIndex[n] < |cs| && cs[columnsIndex[n]].name == n
    {
      LastIndexSpec(Names(columns));
      columns
    }

    /** Lookup by name goes through the index: `column(name)` is the column
        at position `column_index(name)`. */
    lemma ColumnThroughIndex(name: string)
      requires Valid()
      ensures ColumnIndex(name).Some? ==> Column(name) == ColumnByIndex(ColumnIndex(name).value)
      ensures ColumnIndex(name).None? ==> Column(name).None?
    {
    }

    /** With distinct column names, the index finds every column at its own
        position. */
    lemma DistinctNamesIndex()
      requires Valid() && Distinct(Names(columns))
      ensures forall i :: 0 <= i < |columns| ==> ColumnIndex(columns[i].name) == Some(i)
      ensures forall i :: 0 <= i < |columns| ==> Column(columns[i].name) == Some(columns[i])
    {
      LastIndexOfDistinct(Names(columns));
      forall i | 0 <= i < |columns|
        ensures ColumnIndex(columns[i].name) == Some(i) && Column(columns[i].name) == Some(columns[i])
      {
        assert Names(columns)[i] == columns[i].name;
      }
    }

    /** `fields`: the columns that are neither tags nor the time column, in
        their original order. */
    method Fields() returns (fields: seq<TableColumn>)
      ensures fields == FieldColumns(columns)
    {
      fields := [];
      for i := 0 to |columns|
        invariant fields == FieldColumns(columns[..i])
      {
        assert columns[..i + 1][..i] == columns[..i];
        if columns[i].columnType == Time || columns[i].columnType == Tag {
          continue;
        }
        fields := fields + [columns[i]];
      }
      assert columns[..|columns|] == columns;
    }

    /** `field_num`: the number of field columns. */
    method FieldNum() returns (n: nat)
      ensures n == |FieldColumns(columns)|
    {
      n := 0;
      for i := 0 to |columns|
        invariant n == |FieldColumns(columns[..i])|
      {
        assert columns[..i + 1][..i] == columns[..i];
        if columns[i].columnType != Tag && columns[i].columnType != Time {
          n := n + 1;
        }
      }
      assert columns[..|columns|] == columns;
    }

    /** `fields_id`: maps each field column id to its rank among the sorted
        field ids. Its keys are exactly the field ids, its values are below the
        field count, a smaller id always gets a smaller position whatever the
        column order, and with distinct ids every position 0..k-1 is used. */
    method FieldsId() returns (m: map<ColumnId, nat>)
      ensures forall id :: id in m <==> id in FieldIds(columns)
      ensures forall id :: id in m ==> m[id] < |FieldColumns(columns)|
      ensures forall a, b :: a in m && b in m && a < b ==> m[a] < m[b]
      ensures Distinct(FieldIds(columns)) ==> forall k :: 0 <= k < |FieldColumns(columns)| ==> k in m.Values
    {
      var ids: seq<ColumnId> := [];
      for i := 0 to |columns|
        invariant ids == FieldIds(columns[..i])
      {
        assert columns[..i + 1] == columns[..i] + [columns[i]];
        if columns[i].columnType != Tag && columns[i].columnType != Time {
          ids := ids + [columns[i].id];
        }
      }
      assert columns[..|columns|] == columns;
      ghost var unsorted := ids;
      ids := Sort(ids);
      m := map[];
      for i := 0 to |ids|
        invariant m == LastIndex(ids[..i])
      {
        assert ids[..i + 1][..i] == ids[..i];
        m := m[ids[i] := i];
      }
      assert ids[..|ids|] == ids;
      RankMapSpec(unsorted);
    }
  }
}
