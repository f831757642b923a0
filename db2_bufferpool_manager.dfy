/**
 * The DB2 bufferpool drop manager: it turns a bufferpool into the DDL text
 * that drops it.
 */
module DB2Manager {
  import opened Wrappers
  import JavaFormat

  /** The statement template; `%s` is replaced by the bufferpool name. */
  const SqlDrop: string := "DROP BUFFERPOOL %s"

  /** The fixed text in front of the name: the template up to its `%s`. */
  const DropPrefix: string := "DROP BUFFERPOOL "

  /**
   * A DB2 bufferpool as the manager sees it: its name, and the remaining
   * catalogue attributes (page size, size, ...), which the drop statement ignores.
   */
  datatype Bufferpool = Bufferpool(name: string, attributes: map<string, string>)

  /** The DROP statement for `pool`: the template formatted with the name as its one argument. */
  function BuildDropStatement(pool: Bufferpool): (r: string)
    ensures r == DropPrefix + pool.name
    ensures |r| == |DropPrefix| + |pool.name| == 16 + |pool.name|
    ensures r[..|DropPrefix|] == DropPrefix && r[|DropPrefix|..] == pool.name
  {
    assert SqlDrop == DropPrefix + "%s";
    JavaFormat.FormatTrailingString(DropPrefix, pool.name);
    JavaFormat.Format(SqlDrop, [pool.name]).value
  }

  /** Reads a bufferpool name back out of a DROP statement; None when the prefix is absent. */
  function ParseDropStatement(s: string): Option<string> {
    if |s| >= |DropPrefix| && s[..|DropPrefix|] == DropPrefix then Some(s[|DropPrefix|..]) else None
  }

  /** Removing the prefix from the statement gives back exactly the name. */
  lemma DropStatementRoundTrip(pool: Bufferpool)
    ensures ParseDropStatement(BuildDropStatement(pool)) == Some(pool.name)
  {
  }

  /** Every text the parser accepts is the drop statement of the name it returns. */
  lemma ParseDropStatementSound(s: string, name: string)
    requires ParseDropStatement(s) == Some(name)
    ensures s == BuildDropStatement(Bufferpool(name, map[]))
  {
  }

  /** Two bufferpools get the same statement exactly when their names are equal. */
  lemma DropStatementDeterminedByName(p: Bufferpool, q: Bufferpool)
    ensures BuildDropStatement(p) == BuildDropStatement(q) <==> p.name == q.name
  {
  }
}
