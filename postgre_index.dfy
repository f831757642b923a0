/**
 * The in-memory record of a PostgreSQL index: uniqueness, comment, cardinality,
 * additional info, and an ordered, lazily created list of index columns that
 * the methods update in place.
 */
module PostgreModel {
  import opened Wrappers

  /** Java `int`. */
  newtype int32 = x: int | -0x8000_0000 <= x < 0x8000_0000

  /** Java `long`. */
  newtype int64 = x: int | -0x8000_0000_0000_0000 <= x < 0x8000_0000_0000_0000

  /** The table an index belongs to, by identity: its schema (the container) and its name. */
  datatype TableRef = TableRef(schema: string, name: string)

  /** The kind of index (btree, hash, ...), by its identifier. */
  datatype IndexType = IndexType(id: string)

  /**
   * One row of the index catalogue query, with its values already extracted:
   * the integer non-unique flag, the cardinality, the index comment and the
   * comment column (a missing string value is None).
   */
  datatype IndexRow = IndexRow(nonUniqueFlag: int32, cardinality: int64,
                               indexComment: Option<string>, comment: Option<string>)

  /** Everything an index records except its column list. */
  datatype IndexAttributes = IndexAttributes(
    table: TableRef, indexType: IndexType, name: Option<string>, persisted: bool,
    nonUnique: bool, indexComment: Option<string>, additionalInfo: Option<string>,
    cardinality: int64)

  /** The column list after appending `column`: created empty first when absent. */
  function WithColumn(columns: Option<seq<PostgreIndexColumn>>, column: PostgreIndexColumn)
    : (r: Option<seq<PostgreIndexColumn>>)
    ensures r.Some?
    ensures columns.None? ==> r.value == [column]
    ensures columns.Some? ==>
      |r.value| == |columns.value| + 1 && r.value[|columns.value|] == column &&
      forall i :: 0 <= i < |columns.value| ==> r.value[i] == columns.value[i]
  {
    match columns
    case None => Some([column])
    case Some(list) => Some(list + [column])
  }

  /** A column of an index: its name and a reference to the index that owns it. */
  class PostgreIndexColumn {
    const index: PostgreIndex
    const name: string

    /** A column as the catalogue loader builds it (the loader is not part of this model). */
    constructor (index: PostgreIndex, name: string)
      ensures this.index == index && this.name == name
    {
      this.index := index;
      this.name := name;
    }

    /** A copy of `source` that belongs to `index`. */
    constructor CopyOf(index: PostgreIndex, source: PostgreIndexColumn)
      ensures this.index == index && name == source.name
    {
      this.index := index;
      name := source.name;
    }
  }

  class PostgreIndex {
    // Identity, as handed to the table-index base class.
    var table: TableRef
    var indexType: IndexType
    var name: Option<string>
    var persisted: bool
    // PostgreSQL-specific attributes.
    var nonUnique: bool
    var additionalInfo: Option<string>
    var indexComment: Option<string>
    var cardinality: int64
    var columns: Option<seq<PostgreIndexColumn>>

    ghost function Attributes(): IndexAttributes
      reads this
    {
      IndexAttributes(table, indexType, name, persisted,
                      nonUnique, indexComment, additionalInfo, cardinality)
    }

    /** A new index of the given type, not yet in the database: no name, nothing else set. */
    constructor New(table: TableRef, indexType: IndexType)
      ensures Attributes() == IndexAttributes(table, indexType, None, false, false, None, None, 0)
      ensures columns.None?
      ensures IsUnique() && Description().None? && Cardinality() == 0 && AdditionalInfo().None?
    {
      this.table := table;
      this.indexType := indexType;
      name := None;
      persisted := false;
      nonUnique := false;
      additionalInfo := None;
      indexComment := None;
      cardinality := 0;
      columns := None;
    }

    /** An index known to exist, with its name, uniqueness and comment given explicitly. */
    constructor Declared(table: TableRef, nonUnique: bool, indexName: Option<string>,
                         indexType: IndexType, comment: Option<string>)
      ensures Attributes() == IndexAttributes(table, indexType, indexName, true, nonUnique, comment, None, 0)
      ensures columns.None?
      ensures IsUnique() == !nonUnique && Description() == comment
    {
      this.table := table;
      this.indexType := indexType;
      name := indexName;
      persisted := true;
      this.nonUnique := nonUnique;
      additionalInfo := None;
      indexComment := comment;
      cardinality := 0;
      columns := None;
    }

    /**
     * A copy of `source` with the same attributes and a fresh column list, whose
     * columns are copies of the source's, in the same order, owned by the copy.
     */
    constructor Copy(source: PostgreIndex)
      ensures Attributes() == source.Attributes()
      ensures source.columns.None? ==> columns.None?
      ensures source.columns.Some? ==>
        columns.Some? && |columns.value| == |source.columns.value| &&
        forall i :: 0 <= i < |columns.value| ==>
          fresh(columns.value[i]) && columns.value[i].index == this &&
          columns.value[i].name == source.columns.value[i].name
      ensures source.columns.Some? ==>
        forall i, j :: 0 <= i < j < |columns.value| ==> columns.value[i] != columns.value[j]
    {
      table := source.table;
      indexType := source.indexType;
      name := source.name;
      persisted := source.persisted;
      nonUnique := source.nonUnique;
      cardinality := source.cardinality;
      indexComment := source.indexComment;
      additionalInfo := source.additionalInfo;
      columns := None;
      new;
      if source.columns.Some? {
        var sourceColumns := source.columns.value;
        var copied: seq<PostgreIndexColumn> := [];
        for i := 0 to |sourceColumns|
          invariant Attributes() == source.Attributes() && columns.None?
          invariant |copied| == i
          invariant forall k :: 0 <= k < i ==>
            fresh(copied[k]) && copied[k].index == this && copied[k].name == sourceColumns[k].name
          invariant forall k, l :: 0 <= k < l < i ==> copied[k] != copied[l]
        {
          var column := new PostgreIndexColumn.CopyOf(this, sourceColumns[i]);
          copied := copied + [column];
        }
        columns := Some(copied);
      }
    }

    /** An index read from the catalogue: named, persisted, attributes taken from the row. */
    constructor FromRow(parent: TableRef, indexName: Option<string>, indexType: IndexType, row: IndexRow)
      ensures Attributes() == IndexAttributes(parent, indexType, indexName, true, row.nonUniqueFlag != 0,
                                              row.indexComment, row.comment, row.cardinality)
      ensures columns.None?
      ensures IsUnique() <==> row.nonUniqueFlag == 0
      ensures Cardinality() == row.cardinality
      ensures Description() == row.indexComment && AdditionalInfo() == row.comment
    {
      table := parent;
      this.indexType := indexType;
      name := indexName;
      persisted := true;
      nonUnique := row.nonUniqueFlag != 0;
      cardinality := row.cardinality;
      indexComment := row.indexComment;
      additionalInfo := row.comment;
      columns := None;
    }

    /** Whether the index is unique: the negation of the stored non-unique flag. */
    function IsUnique(): (r: bool)
      reads this
      ensures r != nonUnique
    {
      !nonUnique
    }

    /** The index comment. */
    function Description(): (r: Option<string>)
      reads this
      ensures r == indexComment
    {
      indexComment
    }

    function Cardinality(): (r: int64)
      reads this
      ensures r == cardinality
    {
      cardinality
    }

    function AdditionalInfo(): (r: Option<string>)
      reads this
      ensures r == additionalInfo
    {
      additionalInfo
    }

    /** The column list itself, the very value last stored (None before any column is set). */
    function AttributeReferences(): (r: Option<seq<PostgreIndexColumn>>)
      reads this
      ensures r == columns
    {
      columns
    }

    /** Replaces the column list. */
    method SetColumns(list: Option<seq<PostgreIndexColumn>>)
      modifies this`columns
      ensures AttributeReferences() == list
      ensures Attributes() == old(Attributes())
    {
      columns := list;
    }

    /** Appends `column` at the end of the column list, creating the list first when absent. */
    method AddColumn(column: PostgreIndexColumn)
      modifies this`columns
      ensures columns == WithColumn(old(columns), column)
      ensures Attributes() == old(Attributes())
    {
      if columns.None? {
        columns := Some([]);
      }
      assert old(columns).None? ==> columns.value + [column] == [column];
      columns := Some(columns.value + [column]);
    }
  }
}
