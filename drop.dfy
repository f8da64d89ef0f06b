/** DropSQL: `DROP TABLE|INDEX|VIEW [IF EXISTS] name [ON t]`, the same text
    for every dialect, built with the inherited build. */
module DropSql {
  import opened Text
  import opened Wrappers
  import opened Errors
  import opened Sql
  import opened DatabaseTypes

  function IfExistsClause(ifExists: bool): string
  {
    if ifExists then "IF EXISTS " else ""
  }

  /** ` ON t`, the table an index drop names. */
  function OnClause(tableName: Option<string>): string
  {
    if tableName.Some? then " ON " + tableName.value else ""
  }

  /** getSql(type): the first kind flag set decides the statement; the
      dialect is not consulted. */
  function DropText(name: Option<string>, ifExists: bool, isTable: bool, isIndex: bool, isView: bool,
                    tableName: Option<string>): Result<string>
  {
    if isTable then Ok("DROP TABLE " + IfExistsClause(ifExists) + AppendText(name))
    else if isIndex then Ok("DROP INDEX " + IfExistsClause(ifExists) + AppendText(name) + OnClause(tableName))
    else if isView then Ok("DROP VIEW " + IfExistsClause(ifExists) + AppendText(name))
    else Err(IllegalState("Neither table, index nor view specified"))
  }

  /** The statement fails exactly when no kind was chosen; ` ON t` belongs to
      index drops only. */
  lemma DropKinds(name: Option<string>, ifExists: bool, isTable: bool, isIndex: bool, isView: bool,
                  tableName: Option<string>)
    ensures DropText(name, ifExists, isTable, isIndex, isView, tableName).Err? <==> !isTable && !isIndex && !isView
    ensures isTable ==>
      DropText(name, ifExists, isTable, isIndex, isView, tableName)
        == DropText(name, ifExists, isTable, isIndex, isView, None)
    ensures !isTable && isIndex && tableName.Some? ==>
      DropText(name, ifExists, isTable, isIndex, isView, tableName)
        == Ok(DropText(name, ifExists, isTable, isIndex, isView, None).value + " ON " + tableName.value)
  {
    if !isTable && isIndex {
      var text := "DROP INDEX " + IfExistsClause(ifExists) + AppendText(name);
      assert text + OnClause(None) == text;
      if tableName.Some? {
        assert text + OnClause(tableName) == text + " ON " + tableName.value;
      }
    }
  }

  /** `DROP TABLE `, `DROP INDEX ` or `DROP VIEW `: the first kind flag set. */
  function DropHead(isTable: bool, isIndex: bool): string
  {
    if isTable then "DROP TABLE " else if isIndex then "DROP INDEX " else "DROP VIEW "
  }

  /** Every kind renders its head, then `IF EXISTS ` when ifExists was
      called, then the name; only an index drop goes on with ` ON t`, so
      table and view drops ignore fromTable. */
  lemma DropLayout(name: Option<string>, ifExists: bool, isTable: bool, isIndex: bool, isView: bool,
                   tableName: Option<string>)
    requires isTable || isIndex || isView
    ensures DropText(name, ifExists, isTable, isIndex, isView, tableName).Ok?
    ensures DropText(name, ifExists, isTable, isIndex, isView, tableName).value
        == DropHead(isTable, isIndex) + IfExistsClause(ifExists) + AppendText(name)
           + (if !isTable && isIndex then OnClause(tableName) else "")
    ensures isTable || !isIndex ==>
      DropText(name, ifExists, isTable, isIndex, isView, tableName)
        == DropText(name, ifExists, isTable, isIndex, isView, None)
  {
    var tail := if !isTable && isIndex then OnClause(tableName) else "";
    if isTable || !isIndex {
      assert DropHead(isTable, isIndex) + IfExistsClause(ifExists) + AppendText(name) + tail
          == DropHead(isTable, isIndex) + IfExistsClause(ifExists) + AppendText(name);
    }
  }

  /** `IF EXISTS ` follows the head exactly when ifExists was called: a
      valid name never reads as those words. */
  lemma DropIfExistsPlacement(name: Option<string>, ifExists: bool, isTable: bool, isIndex: bool, isView: bool,
                              tableName: Option<string>)
    requires isTable || isIndex || isView
    requires name.Some? ==> IsIdentifier(name.value)
    ensures ifExists
        <==> StartsWith(DropText(name, ifExists, isTable, isIndex, isView, tableName).value, DropHead(isTable, isIndex) + "IF EXISTS ")
  {
    DropLayout(name, ifExists, isTable, isIndex, isView, tableName);
    var tail := if !isTable && isIndex then OnClause(tableName) else "";
    if tail != "" {
      StartsWithConcat(" ON ", tableName.value);
    }
    IfExistsAfterHead(DropHead(isTable, isIndex), ifExists, AppendText(name), tail);
  }

  /** The placement on the parts: head, optional `IF EXISTS `, name, tail. */
  lemma IfExistsAfterHead(h: string, ifExists: bool, n: string, tail: string)
    requires IsIdentifier(n) || n == "null"
    requires tail == "" || StartsWith(tail, " ON ")
    ensures ifExists <==> StartsWith(h + IfExistsClause(ifExists) + n + tail, h + "IF EXISTS ")
  {
    if ifExists {
      ConcatAssociative(h + "IF EXISTS ", n, tail);
      StartsWithConcat(h + "IF EXISTS ", n + tail);
    } else {
      assert h + IfExistsClause(ifExists) + n + tail == h + (n + tail);
      HeadThenName(h, n, tail);
    }
  }

  /** After the head, a name and its tail never read as `IF EXISTS `. */
  lemma HeadThenName(h: string, n: string, tail: string)
    requires IsIdentifier(n) || n == "null"
    requires tail == "" || StartsWith(tail, " ON ")
    ensures !StartsWith(h + (n + tail), h + "IF EXISTS ")
  {
    NotIfExists(n, tail);
    if StartsWith(h + (n + tail), h + "IF EXISTS ") {
      StartsWithCancel(h, n + tail, "IF EXISTS ");
    }
  }

  /** A name that is an identifier, or the text "null", followed by nothing
      or by ` ON t`, never reads as `IF EXISTS `. */
  lemma NotIfExists(n: string, tail: string)
    requires IsIdentifier(n) || n == "null"
    requires tail == "" || StartsWith(tail, " ON ")
    ensures !StartsWith(n + tail, "IF EXISTS ")
  {
    var r := n + tail;
    if |n| >= 3 {
      assert r[2] == n[2] != ' ';
    } else if tail != "" {
      assert tail[..4] == " ON ";
      if |n| == 2 {
        assert r[3] == tail[1] == 'O';
      } else {
        assert r[1] == tail[0] == ' ';
      }
    }
  }

  /** A table whose name validation failed still drops, as `DROP TABLE null`:
      the kind flag is set before the name is validated. */
  lemma FailedNameStillDrops(ifExists: bool)
    ensures DropText(None, ifExists, true, false, false, None)
        == Ok(if ifExists then "DROP TABLE IF EXISTS null" else "DROP TABLE null")
  {
    if ifExists {
      assert "DROP TABLE " + "IF EXISTS " + "null" == "DROP TABLE IF EXISTS null";
    } else {
      assert "DROP TABLE " + "" + "null" == "DROP TABLE null";
    }
  }

  /** Identifiers and the text "null" hold no '?', so the inherited build
      never binds and never fails on a drop. */
  lemma DropBuildsPlain(name: Option<string>, ifExists: bool, isTable: bool, isIndex: bool, isView: bool,
                        tableName: Option<string>)
    requires name.Some? ==> IsIdentifier(name.value)
    requires tableName.Some? ==> IsIdentifier(tableName.value)
    requires isTable || isIndex || isView
    ensures BuildResult(DropText(name, ifExists, isTable, isIndex, isView, tableName).value, [])
        == Ok(PrepareOnly(DropText(name, ifExists, isTable, isIndex, isView, tableName).value))
  {
    if name.Some? {
      IdentifierAvoids(name.value, '?');
    }
    if tableName.Some? {
      IdentifierAvoids(tableName.value, '?');
    }
    NoOccurrences(DropText(name, ifExists, isTable, isIndex, isView, tableName).value, '?');
    assert Bound([], 0) == map[];
  }

  class DropSQL {
    var name: Option<string>
    var ifExists: bool
    var isTable: bool
    var isIndex: bool
    var isView: bool
    var tableName: Option<string>

    /** The stored names went through validateIdentifier and the kind
        setters keep at most one flag set. */
    predicate Valid()
      reads this
    {
      (name.Some? ==> IsIdentifier(name.value))
      && (tableName.Some? ==> IsIdentifier(tableName.value))
      && !(isTable && isIndex) && !(isTable && isView) && !(isIndex && isView)
    }

    constructor()
      ensures Valid()
      ensures name == None && !ifExists && !isTable && !isIndex && !isView && tableName == None
    {
      name := None;
      ifExists := false;
      isTable := false;
      isIndex := false;
      isView := false;
      tableName := None;
    }

    /** name(name), the private step behind table, index and view. */
    method Name(name: string) returns (r: Result<()>)
      requires Valid()
      modifies this
      ensures Valid()
      ensures r == ValidateIdentifier(name)
      ensures this.name == if r.Ok? then Some(name) else old(this.name)
      ensures ifExists == old(ifExists) && tableName == old(tableName)
      ensures isTable == old(isTable) && isIndex == old(isIndex) && isView == old(isView)
    {
      r := ValidateIdentifier(name);
      if r.Ok? {
        this.name := Some(name);
      }
    }

    method IfExists()
      modifies this
      ensures ifExists
      ensures name == old(name) && tableName == old(tableName)
      ensures isTable == old(isTable) && isIndex == old(isIndex) && isView == old(isView)
    {
      ifExists := true;
    }

    /** table(name): the kind is switched even when the name is refused. */
    method Table(tableName: string) returns (r: Result<()>)
      requires Valid()
      modifies this
      ensures Valid()
      ensures isTable && !isIndex && !isView
      ensures r == ValidateIdentifier(tableName)
      ensures name == if r.Ok? then Some(tableName) else old(name)
      ensures ifExists == old(ifExists) && this.tableName == old(this.tableName)
    {
      isTable, isIndex, isView := true, false, false;
      r := Name(tableName);
    }

    method Index(indexName: string) returns (r: Result<()>)
      requires Valid()
      modifies this
      ensures Valid()
      ensures !isTable && isIndex && !isView
      ensures r == ValidateIdentifier(indexName)
      ensures name == if r.Ok? then Some(indexName) else old(name)
      ensures ifExists == old(ifExists) && tableName == old(tableName)
    {
      isTable, isIndex, isView := false, true, false;
      r := Name(indexName);
    }

    method View(viewName: string) returns (r: Result<()>)
      requires Valid()
      modifies this
      ensures Valid()
      ensures !isTable && !isIndex && isView
      ensures r == ValidateIdentifier(viewName)
      ensures name == if r.Ok? then Some(viewName) else old(name)
      ensures ifExists == old(ifExists) && tableName == old(tableName)
    {
      isTable, isIndex, isView := false, false, true;
      r := Name(viewName);
    }

    /** fromTable(tableName): the table an index drop names with ON. */
    method FromTable(tableName: string) returns (r: Result<()>)
      requires Valid()
      modifies this
      ensures Valid()
      ensures r == ValidateIdentifier(tableName)
      ensures this.tableName == if r.Ok? then Some(tableName) else old(this.tableName)
      ensures name == old(name) && ifExists == old(ifExists)
      ensures isTable == old(isTable) && isIndex == old(isIndex) && isView == old(isView)
    {
      r := ValidateIdentifier(tableName);
      if r.Ok? {
        this.tableName := Some(tableName);
      }
    }

    method GetSql(d: DatabaseType) returns (r: Result<string>)
      ensures r == DropText(name, ifExists, isTable, isIndex, isView, tableName)
    {
      var sql: string;
      if isTable {
        sql := "DROP TABLE ";
      } else if isIndex {
        sql := "DROP INDEX ";
      } else if isView {
        sql := "DROP VIEW ";
      } else {
        return Err(IllegalState("Neither table, index nor view specified"));
      }
      if ifExists {
        sql := sql + "IF EXISTS ";
      } else {
        assert sql == sql + IfExistsClause(ifExists);
      }
      sql := sql + AppendText(name);
      if !isTable && isIndex {
        if tableName.Some? {
          assert sql + " ON " + tableName.value == sql + OnClause(tableName);
          sql := sql + " ON " + tableName.value;
        } else {
          assert sql == sql + OnClause(tableName);
        }
      }
      r := Ok(sql);
    }

    /** build: the inherited build, with no parameter ever collected. */
    method Build(d: DatabaseType) returns (r: Result<PreparedStatement>)
      ensures DropText(name, ifExists, isTable, isIndex, isView, tableName).Ok? ==>
        r == BuildResult(DropText(name, ifExists, isTable, isIndex, isView, tableName).value, [])
      ensures DropText(name, ifExists, isTable, isIndex, isView, tableName).Err? ==>
        r == Err(DropText(name, ifExists, isTable, isIndex, isView, tableName).error)
    {
      var sql :- GetSql(d);
      r := BindParameters(sql, []);
    }
  }

  /** SQL.drop() */
  method NewDrop() returns (s: DropSQL)
    ensures fresh(s) && s.Valid()
    ensures s.name == None && !s.ifExists && !s.isTable && !s.isIndex && !s.isView && s.tableName == None
  {
    s := new DropSQL();
  }
}
