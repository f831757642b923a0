# DBeaver index record and bufferpool drop statement, in Dafny

This project models two pieces of DBeaver's database object model.

- **PostgreSQL index record** (`PostgreModel`, file `postgre_index.dfy`). `PostgreIndex` is a class.
  - Its fields are the ones the Java class and its base class hold: table, index type, name, persisted flag, non-unique flag, index comment, additional info, cardinality (a Java `long`, modelled as `int64`), and the column list.
  - The column list is `Option<seq<PostgreIndexColumn>>`. None is the Java `null` the list starts as.
  - The four constructors are modelled, including the copy constructor. Its loop allocates one new column per source column, owned by the new index.
  - `AddColumn` and `SetColumns` update the column list in place. Their frame (``modifies this`columns``) and an `Attributes()` postcondition say that nothing else changes.
  - The catalogue-row constructor takes an `IndexRow`: the values already extracted from the JDBC result set.
  - `PostgreIndexColumn.java` is not part of this model. A column is an abstract record: a name and a reference to its owning index.
- **DB2 bufferpool drop** (`DB2Manager`, file `db2_bufferpool_manager.dfy`).
  - `BuildDropStatement` formats the template `"DROP BUFFERPOOL %s"` with the bufferpool name.
  - Formatting goes through `JavaFormat.Format` (file `java_format.dfy`). This is a model of `String.format` restricted to `%s` and `%%`.
  - So the statement's shape (`"DROP BUFFERPOOL " + name`, 16 + |name| characters) is proved, not assumed.
  - `ParseDropStatement`, which strips the prefix, is the partner used to state the round trip.
- `Wrappers.Option` stands for a Java reference that may be null.

## Model

| member | source | states |
|---|---|---|
| `PostgreModel.PostgreIndex.New` | plugins/org.jkiss.dbeaver.ext.postgresql/src/org/jkiss/dbeaver/ext/postgresql/model/PostgreIndex.java:45-50 | The type-only constructor gives an index with no name and persisted = false. Every attribute has its Java default: not non-unique (so unique), no comment, cardinality 0, no additional info, no column list. |
| `PostgreModel.PostgreIndex.Declared` | plugins/org.jkiss.dbeaver.ext.postgresql/src/org/jkiss/dbeaver/ext/postgresql/model/PostgreIndex.java:52-62 | The explicit-value constructor gives a persisted index with the given name and type. It stores nonUnique and the comment unchanged. isUnique() is then the negation of nonUnique, and getDescription() returns the comment. |
| `PostgreModel.PostgreIndex.Copy` | plugins/org.jkiss.dbeaver.ext.postgresql/src/org/jkiss/dbeaver/ext/postgresql/model/PostgreIndex.java:68-81 | The copy has the source's nonUnique, cardinality, index comment and additional info. If the source has no list, the copy has none. Otherwise the copy gets a list of the same length. Element i is a newly allocated column with source element i's name, owned by the copy. The copied columns are pairwise distinct objects. |
| `PostgreModel.PostgreIndexColumn.CopyOf` | plugins/org.jkiss.dbeaver.ext.postgresql/src/org/jkiss/dbeaver/ext/postgresql/model/PostgreIndex.java:78 | A column copied into an index keeps the source column's name and belongs to the new index. |
| `PostgreModel.PostgreIndex.FromRow` | plugins/org.jkiss.dbeaver.ext.postgresql/src/org/jkiss/dbeaver/ext/postgresql/model/PostgreIndex.java:83-94 | The result-row constructor gives a persisted index with the given name. nonUnique is true iff the row's integer flag is nonzero, so isUnique() holds iff the flag is 0. Cardinality, index comment and additional info are copied straight from the row. |
| `PostgreModel.PostgreIndex.IsUnique` | plugins/org.jkiss.dbeaver.ext.postgresql/src/org/jkiss/dbeaver/ext/postgresql/model/PostgreIndex.java:103-108 | isUnique() is exactly the negation of the stored non-unique flag. |
| `PostgreModel.PostgreIndex.Description` | plugins/org.jkiss.dbeaver.ext.postgresql/src/org/jkiss/dbeaver/ext/postgresql/model/PostgreIndex.java:110-116 | getDescription() returns the stored index comment, null included. |
| `PostgreModel.PostgreIndex.Cardinality` | plugins/org.jkiss.dbeaver.ext.postgresql/src/org/jkiss/dbeaver/ext/postgresql/model/PostgreIndex.java:118-121 | getCardinality() returns the stored cardinality. |
| `PostgreModel.PostgreIndex.AdditionalInfo` | plugins/org.jkiss.dbeaver.ext.postgresql/src/org/jkiss/dbeaver/ext/postgresql/model/PostgreIndex.java:123-126 | getAdditionalInfo() returns the stored additional info. |
| `PostgreModel.PostgreIndex.AttributeReferences` | plugins/org.jkiss.dbeaver.ext.postgresql/src/org/jkiss/dbeaver/ext/postgresql/model/PostgreIndex.java:128-132 | getAttributeReferences() returns the stored column list itself, null when none was set. |
| `PostgreModel.PostgreIndex.SetColumns` | plugins/org.jkiss.dbeaver.ext.postgresql/src/org/jkiss/dbeaver/ext/postgresql/model/PostgreIndex.java:139-142 | After setColumns(l), getAttributeReferences() returns exactly l. No other field changes. |
| `PostgreModel.PostgreIndex.AddColumn` | plugins/org.jkiss.dbeaver.ext.postgresql/src/org/jkiss/dbeaver/ext/postgresql/model/PostgreIndex.java:144-150 | addColumn(c) leaves the list equal to WithColumn(old list, c): a one-element list if there was none, otherwise the old list with c appended. No other field changes. |
| `PostgreModel.WithColumn` | plugins/org.jkiss.dbeaver.ext.postgresql/src/org/jkiss/dbeaver/ext/postgresql/model/PostgreIndex.java:146-149 | Appending to a missing list gives exactly [c]. Appending to an existing list grows it by one and puts c last. Every earlier column stays at its position. |
| `JavaFormat.FormatLiteralPrefix` | plugins/org.jkiss.dbeaver.ext.db2/src/org/jkiss/dbeaver/ext/db2/manager/DB2BufferpoolManager.java:39 | In String.format, literal text before the rest of the template is copied unchanged and consumes no argument. |
| `JavaFormat.Format` | plugins/org.jkiss.dbeaver.ext.db2/src/org/jkiss/dbeaver/ext/db2/manager/DB2BufferpoolManager.java:39 | String.format restricted to two conversions: %s inserts the next argument verbatim and %% gives a percent sign; other characters are copied. A dangling %, a %s with no argument left, or any other conversion is an error (None). Surplus arguments are ignored. A template with no format specifier formats to itself, whatever the arguments. |
| `JavaFormat.FormatTrailingString` | plugins/org.jkiss.dbeaver.ext.db2/src/org/jkiss/dbeaver/ext/db2/manager/DB2BufferpoolManager.java:39 | Formatting literal text followed by %s with one argument gives the literal followed by the argument, verbatim: no quoting, escaping or case change. |
| `JavaFormat.FormatMissingArgument` | plugins/org.jkiss.dbeaver.ext.db2/src/org/jkiss/dbeaver/ext/db2/manager/DB2BufferpoolManager.java:39 | A %s with no argument to consume is an error. |
| `DB2Manager.BuildDropStatement` | plugins/org.jkiss.dbeaver.ext.db2/src/org/jkiss/dbeaver/ext/db2/manager/DB2BufferpoolManager.java:33-40 | buildDropStatement returns exactly "DROP BUFFERPOOL " followed by the name. It starts with that prefix, ends with the name, and has length 16 plus the name's length. |
| `DB2Manager.DropStatementRoundTrip` | plugins/org.jkiss.dbeaver.ext.db2/src/org/jkiss/dbeaver/ext/db2/manager/DB2BufferpoolManager.java:33-39 | Removing the 16-character prefix from the statement gives back the original name. |
| `DB2Manager.ParseDropStatementSound` | plugins/org.jkiss.dbeaver.ext.db2/src/org/jkiss/dbeaver/ext/db2/manager/DB2BufferpoolManager.java:33-39 | Any text that begins with the prefix is the drop statement of the name that follows the prefix. |
| `DB2Manager.DropStatementDeterminedByName` | plugins/org.jkiss.dbeaver.ext.db2/src/org/jkiss/dbeaver/ext/db2/manager/DB2BufferpoolManager.java:36-40 | The statement depends only on the name. Two bufferpools get identical statements iff their names are equal. |

## Left out

- PostgreIndex.getDataSource, getFullQualifiedName and getColumn: they go through the table, the data source and the DBUtils helpers, none of which are part of this model.
- The base class JDBCTableIndex is not part of this model. Only the values the constructors pass to it are modelled: table, index type, name and the persisted flag.
- PostgreModel.PostgreIndexColumn.CopyOf: PostgreIndexColumn.java is not part of this model. This model assumes its copy constructor keeps the source column's name and takes the given index as its parent.
- PostgreModel.PostgreIndex.Copy: the base-class copy constructor is not visible. This model assumes it copies the table, index type, name and persisted flag.
- The table's container (table.getContainer()) is not stored separately. It is the schema part of `TableRef`.
- PostgreModel.PostgreIndex.FromRow: reading the JDBC result set is left out. JDBCUtils.safeGetInt/safeGetLong/safeGetString are not modelled, including their fallback values when a column is missing. The row's values arrive already extracted in an `IndexRow`.
- Aliasing of Java lists: the column list is a sequence value. setColumns(l) followed by a caller mutating l, or a caller mutating the list getAttributeReferences returned, is not modelled. Neither is the ArrayList capacity hint in the copy constructor.
- The @Property display annotations and the @NotNull/@Nullable markers carry no behaviour and are not modelled.
- DB2Manager.BuildDropStatement: the bufferpool name is a non-null string. Java's String.format would print "null" for a null name; that case is not modelled.
- JavaFormat.Format covers only the %s and %% conversions. Every other conversion is modelled as an error, and locale handling is not modelled.
- DB2BufferpoolManager.getObjectsCache is a call into the data source's bufferpool cache, which is not part of this model. The drop-only manager base class and the execution of the statement are not part of it either.
- DatabaseObjectTransfer (clipboard and drag-and-drop transfer type) is left out. It is SWT UI code with global state and a type name built from the clock.
- BinaryFormatterString is left out. It only delegates to charset conversion helpers that are not part of this model, and otherwise returns two constant strings.
