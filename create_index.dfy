/** CreateIndexSQL: `CREATE [UNIQUE] INDEX [IF NOT EXISTS] name ON t (c, ...)`,
    with IF NOT EXISTS rendered only for the dialects that accept it. */
module CreateIndexSql {
  import opened Text
  import opened Wrappers
  import opened Errors
  import opened Sql
  import opened DatabaseTypes

  function IndexHead(unique: bool): string
  {
    if unique then "CREATE UNIQUE INDEX " else "CREATE INDEX "
  }

  /** IF NOT EXISTS is rendered for SQLite and PostgreSQL and dropped
      silently for MySQL and MariaDB. */
  function IfNotExistsClause(ifNotExists: bool, d: DatabaseType): string
  {
    if ifNotExists && (d == SQLITE || d == POSTGRESQL) then "IF NOT EXISTS " else ""
  }

  function IndexBody(indexName: string, tableName: string, columns: seq<string>): string
  {
    indexName + " ON " + tableName + " (" + Join(", ", columns) + ")"
  }

  const IndexNeedsName := "Index name must be specified"
  const IndexNeedsTable := "Table name must be specified"
  const IndexNeedsColumn := "At least one column must be specified"

  /** getSql(type): the three checks in order, then the text. */
  function IndexText(indexName: Option<string>, tableName: Option<string>, columns: seq<string>,
                     unique: bool, ifNotExists: bool, d: DatabaseType): Result<string>
  {
    if indexName.None? then Err(IllegalState(IndexNeedsName))
    else if tableName.None? then Err(IllegalState(IndexNeedsTable))
    else if |columns| == 0 then Err(IllegalState(IndexNeedsColumn))
    else Ok(IndexHead(unique) + (IfNotExistsClause(ifNotExists, d) + IndexBody(indexName.value, tableName.value, columns)))
  }

  /** The checks of getSql, in their order. */
  lemma IndexChecks(indexName: Option<string>, tableName: Option<string>, columns: seq<string>,
                    unique: bool, ifNotExists: bool, d: DatabaseType)
    ensures IndexText(indexName, tableName, columns, unique, ifNotExists, d).Ok?
        <==> indexName.Some? && tableName.Some? && |columns| > 0
    ensures indexName.None? ==>
      IndexText(indexName, tableName, columns, unique, ifNotExists, d) == Err(IllegalState(IndexNeedsName))
    ensures indexName.Some? && tableName.None? ==>
      IndexText(indexName, tableName, columns, unique, ifNotExists, d) == Err(IllegalState(IndexNeedsTable))
    ensures indexName.Some? && tableName.Some? && |columns| == 0 ==>
      IndexText(indexName, tableName, columns, unique, ifNotExists, d)
        == Err(IllegalState(IndexNeedsColumn))
  {
  }

  /** A rendered index starts with CREATE UNIQUE INDEX exactly when unique
      was requested, and holds IF NOT EXISTS right after the head exactly
      on SQLite and PostgreSQL. */
  lemma IndexShape(indexName: string, tableName: string, columns: seq<string>,
                   unique: bool, ifNotExists: bool, d: DatabaseType)
    requires |columns| > 0
    ensures StartsWith(IndexText(Some(indexName), Some(tableName), columns, unique, ifNotExists, d).value, IndexHead(unique))
    ensures unique <==>
      StartsWith(IndexText(Some(indexName), Some(tableName), columns, unique, ifNotExists, d).value, "CREATE UNIQUE INDEX ")
    ensures (d == MYSQL || d == MARIADB) ==>
      IndexText(Some(indexName), Some(tableName), columns, unique, ifNotExists, d)
        == IndexText(Some(indexName), Some(tableName), columns, unique, false, d)
    ensures IndexText(Some(indexName), Some(tableName), columns, unique, ifNotExists, d).value
        == IndexHead(unique) + IfNotExistsClause(ifNotExists, d) + IndexBody(indexName, tableName, columns)
  {
    var rest := IfNotExistsClause(ifNotExists, d) + IndexBody(indexName, tableName, columns);
    var text := IndexHead(unique) + rest;
    StartsWithConcat(IndexHead(unique), rest);
    if !unique {
      assert text[7] == "CREATE INDEX "[7] != "CREATE UNIQUE INDEX "[7];
    }
  }

  /** Names that are identifiers leave no '?' in the text, so the text
      prepared as it is and the inherited build agree. */
  lemma IndexHasNoPlaceholder(indexName: string, tableName: string, columns: seq<string>,
                              unique: bool, ifNotExists: bool, d: DatabaseType)
    requires IsIdentifier(indexName) && IsIdentifier(tableName)
    requires forall i :: 0 <= i < |columns| ==> IsIdentifier(columns[i])
    requires |columns| > 0
    ensures '?' !in IndexText(Some(indexName), Some(tableName), columns, unique, ifNotExists, d).value
    ensures BuildResult(IndexText(Some(indexName), Some(tableName), columns, unique, ifNotExists, d).value, [])
        == Ok(PrepareOnly(IndexText(Some(indexName), Some(tableName), columns, unique, ifNotExists, d).value))
  {
    IdentifierAvoids(indexName, '?');
    IdentifierAvoids(tableName, '?');
    forall i | 0 <= i < |columns| ensures '?' !in columns[i] {
      IdentifierAvoids(columns[i], '?');
    }
    JoinExcludes(", ", columns, '?');
    var body := IndexBody(indexName, tableName, columns);
    assert '?' !in body;
    FixedTextFree(unique, ifNotExists, d);
    var rest := IfNotExistsClause(ifNotExists, d) + body;
    assert '?' !in rest;
    var text := IndexText(Some(indexName), Some(tableName), columns, unique, ifNotExists, d).value;
    assert text == IndexHead(unique) + rest;
    NoOccurrences(text, '?');
    assert Bound([], 0) == map[];
  }

  /** The keywords around the names hold no placeholder. */
  lemma FixedTextFree(unique: bool, ifNotExists: bool, d: DatabaseType)
    ensures '?' !in IndexHead(unique) && '?' !in IfNotExistsClause(ifNotExists, d)
  {
  }

  class CreateIndexSQL {
    var columns: seq<string>
    var indexName: Option<string>
    var tableName: Option<string>
    var unique: bool
    var ifNotExists: bool

    /** Every stored name went through validateIdentifier. */
    predicate Valid()
      reads this
    {
      (indexName.Some? ==> IsIdentifier(indexName.value))
      && (tableName.Some? ==> IsIdentifier(tableName.value))
      && forall i :: 0 <= i < |columns| ==> IsIdentifier(columns[i])
    }

    constructor()
      ensures Valid()
      ensures columns == [] && indexName == None && tableName == None && !unique && !ifNotExists
    {
      columns := [];
      indexName := None;
      tableName := None;
      unique := false;
      ifNotExists := false;
    }

    method Index(name: string) returns (r: Result<()>)
      requires Valid()
      modifies this
      ensures Valid()
      ensures r == ValidateIdentifier(name)
      ensures indexName == if r.Ok? then Some(name) else old(indexName)
      ensures columns == old(columns) && tableName == old(tableName)
      ensures unique == old(unique) && ifNotExists == old(ifNotExists)
    {
      r := ValidateIdentifier(name);
      if r.Ok? {
        indexName := Some(name);
      }
    }

    method On(name: string) returns (r: Result<()>)
      requires Valid()
      modifies this
      ensures Valid()
      ensures r == ValidateIdentifier(name)
      ensures tableName == if r.Ok? then Some(name) else old(tableName)
      ensures columns == old(columns) && indexName == old(indexName)
      ensures unique == old(unique) && ifNotExists == old(ifNotExists)
    {
      r := ValidateIdentifier(name);
      if r.Ok? {
        tableName := Some(name);
      }
    }

    method Column(name: string) returns (r: Result<()>)
      requires Valid()
      modifies this
      ensures Valid()
      ensures r == ValidateIdentifier(name)
      ensures columns == if r.Ok? then old(columns) + [name] else old(columns)
      ensures indexName == old(indexName) && tableName == old(tableName)
      ensures unique == old(unique) && ifNotExists == old(ifNotExists)
    {
      r := ValidateIdentifier(name);
      if r.Ok? {
        columns := columns + [name];
      }
    }

    /** columns(names...): each name is validated and appended in turn, so
        the names before the first invalid one stay appended. */
    method Columns(names: seq<string>) returns (r: Result<()>)
      requires Valid()
      modifies this
      ensures Valid()
      ensures r == ValidateAll(names)
      ensures columns == old(columns) + names[..ValidPrefix(names)]
      ensures indexName == old(indexName) && tableName == old(tableName)
      ensures unique == old(unique) && ifNotExists == old(ifNotExists)
    {
      ValidateAllAtPrefix(names);
      var n := ValidPrefix(names);
      for i := 0 to |names|
        invariant i <= n
        invariant columns == old(columns) + names[..i]
        invariant Valid()
        invariant indexName == old(indexName) && tableName == old(tableName)
        invariant unique == old(unique) && ifNotExists == old(ifNotExists)
      {
        if !IsIdentifier(names[i]) {
          return Err(IllegalIdentifier(names[i]));
        }
        columns := columns + [names[i]];
        assert names[..i + 1] == names[..i] + [names[i]];
      }
      assert names[..|names|] == names;
      r := Ok(());
    }

    method Unique()
      modifies this
      ensures unique
      ensures columns == old(columns) && indexName == old(indexName) && tableName == old(tableName)
      ensures ifNotExists == old(ifNotExists)
    {
      unique := true;
    }

    method IfNotExists()
      modifies this
      ensures ifNotExists
      ensures columns == old(columns) && indexName == old(indexName) && tableName == old(tableName)
      ensures unique == old(unique)
    {
      ifNotExists := true;
    }

    method GetSql(d: DatabaseType) returns (r: Result<string>)
      ensures r == IndexText(indexName, tableName, columns, unique, ifNotExists, d)
    {
      if indexName.None? {
        return Err(IllegalState(IndexNeedsName));
      }
      if tableName.None? {
        return Err(IllegalState(IndexNeedsTable));
      }
      if |columns| == 0 {
        return Err(IllegalState(IndexNeedsColumn));
      }
      var head := if unique then "CREATE UNIQUE INDEX " else "CREATE INDEX ";
      var body := indexName.value + " ON " + tableName.value + " (" + Join(", ", columns) + ")";
      assert body == IfNotExistsClause(false, d) + body;
      if ifNotExists && (d == SQLITE || d == POSTGRESQL) {
        body := "IF NOT EXISTS " + body;
      }
      r := Ok(head + body);
    }

    /** build: the text prepared as it is, nothing bound. */
    method Build(d: DatabaseType) returns (r: Result<PreparedStatement>)
      ensures IndexText(indexName, tableName, columns, unique, ifNotExists, d).Ok? ==>
        r == Ok(PrepareOnly(IndexText(indexName, tableName, columns, unique, ifNotExists, d).value))
      ensures IndexText(indexName, tableName, columns, unique, ifNotExists, d).Err? ==>
        r == Err(IndexText(indexName, tableName, columns, unique, ifNotExists, d).error)
    {
      var sql :- GetSql(d);
      r := Ok(PrepareOnly(sql));
    }
  }

  /** SQL.createIndex() */
  method NewCreateIndex() returns (s: CreateIndexSQL)
    ensures fresh(s) && s.Valid()
    ensures s.columns == [] && s.indexName == None && s.tableName == None && !s.unique && !s.ifNotExists
  {
    s := new CreateIndexSQL();
  }
}
