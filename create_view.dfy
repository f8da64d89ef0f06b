/** CreateViewSQL: `CREATE [OR REPLACE] VIEW [IF NOT EXISTS] v AS query`,
    where the query is either literal text or a SELECT builder's rendering. */
module CreateViewSql {
  import opened Text
  import opened Wrappers
  import opened Errors
  import opened Sql
  import opened DatabaseTypes

  /** A SelectSQL handed to as(SelectSQL), known by what its getSql returns
      for each dialect (SelectSQL itself is not part of this model). */
  datatype SelectText = SelectText(sqlite: string, mysql: string, mariadb: string, postgresql: string)

  function Rendered(select: SelectText, d: DatabaseType): string
  {
    match d
    case SQLITE => select.sqlite
    case MYSQL => select.mysql
    case MARIADB => select.mariadb
    case POSTGRESQL => select.postgresql
  }

  const ViewNeedsName := "View name must be specified"
  const QueryNeedsText := "Select query must be specified"
  const OrReplaceRefused := "SQLite does not support OR REPLACE. Use DROP VIEW then CREATE VIEW instead."

  /** The query getSql uses: the builder's rendering when one is set,
      otherwise the literal text when it is not empty. */
  function ViewQuery(selectQuery: Option<string>, selectSql: Option<SelectText>, d: DatabaseType): Result<string>
  {
    if selectSql.Some? then Ok(Rendered(selectSql.value, d))
    else if selectQuery.Some? && |selectQuery.value| > 0 then Ok(selectQuery.value)
    else Err(IllegalState(QueryNeedsText))
  }

  function ViewHead(orReplace: bool): string
  {
    if orReplace then "CREATE OR REPLACE VIEW " else "CREATE VIEW "
  }

  /** IF NOT EXISTS is rendered for PostgreSQL only. */
  function ViewIfNotExists(ifNotExists: bool, d: DatabaseType): string
  {
    if ifNotExists && d == POSTGRESQL then "IF NOT EXISTS " else ""
  }

  /** getSql(type): the view name, then the query, then the OR REPLACE rule
      of SQLite. */
  function ViewText(viewName: Option<string>, selectQuery: Option<string>, selectSql: Option<SelectText>,
                    orReplace: bool, ifNotExists: bool, d: DatabaseType): Result<string>
  {
    if viewName.None? then Err(IllegalState(ViewNeedsName))
    else
      var query :- ViewQuery(selectQuery, selectSql, d);
      if orReplace && d == SQLITE then Err(UnsupportedOperation(OrReplaceRefused))
      else Ok(ViewHead(orReplace) + (ViewIfNotExists(ifNotExists, d) + (viewName.value + " AS " + query)))
  }

  /** The checks of getSql, in their order. */
  lemma ViewChecks(viewName: Option<string>, selectQuery: Option<string>, selectSql: Option<SelectText>,
                   orReplace: bool, ifNotExists: bool, d: DatabaseType)
    ensures viewName.None? ==>
      ViewText(viewName, selectQuery, selectSql, orReplace, ifNotExists, d) == Err(IllegalState(ViewNeedsName))
    ensures viewName.Some? && selectSql.None? && (selectQuery.None? || |selectQuery.value| == 0) ==>
      ViewText(viewName, selectQuery, selectSql, orReplace, ifNotExists, d)
        == Err(IllegalState(QueryNeedsText))
    ensures viewName.Some? && (selectSql.Some? || (selectQuery.Some? && |selectQuery.value| > 0)) ==>
      (ViewText(viewName, selectQuery, selectSql, orReplace, ifNotExists, d).Err? <==> orReplace && d == SQLITE)
  {
  }

  /** A rendered view ends with ` AS ` and the query, the SELECT builder's
      rendering taking precedence over literal text. */
  lemma ViewEndsWithQuery(viewName: string, selectQuery: Option<string>, selectSql: Option<SelectText>,
                          orReplace: bool, ifNotExists: bool, d: DatabaseType)
    requires ViewText(Some(viewName), selectQuery, selectSql, orReplace, ifNotExists, d).Ok?
    ensures EndsWith(ViewText(Some(viewName), selectQuery, selectSql, orReplace, ifNotExists, d).value,
                     " AS " + (if selectSql.Some? then Rendered(selectSql.value, d) else selectQuery.value))
    ensures StartsWith(ViewText(Some(viewName), selectQuery, selectSql, orReplace, ifNotExists, d).value, ViewHead(orReplace))
  {
    var query := ViewQuery(selectQuery, selectSql, d).value;
    var h, n := ViewHead(orReplace), ViewIfNotExists(ifNotExists, d);
    var suffix := " AS " + query;
    ConcatAssociative(viewName, " AS ", query);
    ConcatAssociative(n, viewName, suffix);
    ConcatAssociative(h, n + viewName, suffix);
    ConcatAssociative(h, n, viewName);
    EndsWithConcat(h + n + viewName, suffix);
    StartsWithConcat(h, n + (viewName + " AS " + query));
  }

  /** IF NOT EXISTS changes nothing but on PostgreSQL, where it follows
      `VIEW `. */
  lemma ViewIfNotExistsByDialect(viewName: Option<string>, selectQuery: Option<string>, selectSql: Option<SelectText>,
                                 orReplace: bool, d: DatabaseType)
    ensures d != POSTGRESQL ==>
      ViewText(viewName, selectQuery, selectSql, orReplace, true, d)
        == ViewText(viewName, selectQuery, selectSql, orReplace, false, d)
    ensures viewName.Some? && ViewQuery(selectQuery, selectSql, POSTGRESQL).Ok? ==>
      ViewText(viewName, selectQuery, selectSql, orReplace, true, POSTGRESQL)
        == Ok(ViewHead(orReplace) + ("IF NOT EXISTS " + (viewName.value + " AS " + ViewQuery(selectQuery, selectSql, POSTGRESQL).value)))
  {
    if d != POSTGRESQL && viewName.Some? {
      var tail := viewName.value + " AS ";
      assert forall q: string :: "" + (tail + q) == tail + q;
    }
  }

  /** What as(String) accepts: a present query with something left after
      trimming. */
  function AsQueryCall(selectQuery: Option<string>): (r: Result<string>)
    ensures r.Ok? <==> selectQuery.Some? && exists k :: 0 <= k < |selectQuery.value| && !IsTrimmable(selectQuery.value[k])
    ensures r.Ok? ==> r.value == Trim(selectQuery.value) && |r.value| > 0
    ensures r.Err? ==> r.error == IllegalArgument("Select query cannot be null or empty")
  {
    if selectQuery.None? then Err(IllegalArgument("Select query cannot be null or empty"))
    else
      TrimEmpty(selectQuery.value);
      if |Trim(selectQuery.value)| == 0 then Err(IllegalArgument("Select query cannot be null or empty"))
      else Ok(Trim(selectQuery.value))
  }

  class CreateViewSQL {
    var viewName: Option<string>
    var selectQuery: Option<string>
    var selectSql: Option<SelectText>
    var orReplace: bool
    var ifNotExists: bool

    /** The name went through validateIdentifier, the literal query was
        trimmed and is not empty, and at most one query source is set. */
    predicate Valid()
      reads this
    {
      (viewName.Some? ==> IsIdentifier(viewName.value))
      && (selectQuery.Some? ==> |selectQuery.value| > 0)
      && (selectQuery.None? || selectSql.None?)
    }

    constructor()
      ensures Valid()
      ensures viewName == None && selectQuery == None && selectSql == None && !orReplace && !ifNotExists
    {
      viewName := None;
      selectQuery := None;
      selectSql := None;
      orReplace := false;
      ifNotExists := false;
    }

    method View(name: string) returns (r: Result<()>)
      requires Valid()
      modifies this
      ensures Valid()
      ensures r == ValidateIdentifier(name)
      ensures viewName == if r.Ok? then Some(name) else old(viewName)
      ensures selectQuery == old(selectQuery) && selectSql == old(selectSql)
      ensures orReplace == old(orReplace) && ifNotExists == old(ifNotExists)
    {
      r := ValidateIdentifier(name);
      if r.Ok? {
        viewName := Some(name);
      }
    }

    /** as(String): stores the trimmed text and forgets a SELECT builder. */
    method As(query: Option<string>) returns (r: Result<()>)
      requires Valid()
      modifies this
      ensures Valid()
      ensures r.Ok? <==> AsQueryCall(query).Ok?
      ensures r.Err? ==> r.error == AsQueryCall(query).error
      ensures r.Ok? ==> selectQuery == Some(AsQueryCall(query).value) && selectSql == None
      ensures r.Err? ==> selectQuery == old(selectQuery) && selectSql == old(selectSql)
      ensures viewName == old(viewName) && orReplace == old(orReplace) && ifNotExists == old(ifNotExists)
    {
      var call := AsQueryCall(query);
      if call.Err? {
        return Err(call.error);
      }
      selectQuery := Some(call.value);
      selectSql := None;
      r := Ok(());
    }

    /** as(SelectSQL): stores the builder and forgets literal text. */
    method AsSelect(select: Option<SelectText>) returns (r: Result<()>)
      requires Valid()
      modifies this
      ensures Valid()
      ensures r.Err? <==> select.None?
      ensures r.Err? ==> r.error == IllegalArgument("SelectSQL cannot be null")
      ensures r.Ok? ==> selectSql == select && selectQuery == None
      ensures r.Err? ==> selectQuery == old(selectQuery) && selectSql == old(selectSql)
      ensures viewName == old(viewName) && orReplace == old(orReplace) && ifNotExists == old(ifNotExists)
    {
      if select.None? {
        return Err(IllegalArgument("SelectSQL cannot be null"));
      }
      selectSql := select;
      selectQuery := None;
      r := Ok(());
    }

    method OrReplace()
      modifies this
      ensures orReplace
      ensures viewName == old(viewName) && selectQuery == old(selectQuery) && selectSql == old(selectSql)
      ensures ifNotExists == old(ifNotExists)
    {
      orReplace := true;
    }

    method IfNotExists()
      modifies this
      ensures ifNotExists
      ensures viewName == old(viewName) && selectQuery == old(selectQuery) && selectSql == old(selectSql)
      ensures orReplace == old(orReplace)
    {
      ifNotExists := true;
    }

    method GetSql(d: DatabaseType) returns (r: Result<string>)
      ensures r == ViewText(viewName, selectQuery, selectSql, orReplace, ifNotExists, d)
    {
      if viewName.None? {
        return Err(IllegalState(ViewNeedsName));
      }
      var query: string;
      if selectSql.Some? {
        query := Rendered(selectSql.value, d);
      } else if selectQuery.Some? && |selectQuery.value| > 0 {
        query := selectQuery.value;
      } else {
        return Err(IllegalState(QueryNeedsText));
      }
      var head := "CREATE ";
      if orReplace {
        if d == SQLITE {
          return Err(UnsupportedOperation(OrReplaceRefused));
        }
        head := head + "OR REPLACE ";
      }
      head := head + "VIEW ";
      assert head == ViewHead(orReplace);
      var tail := viewName.value + " AS " + query;
      if ifNotExists && d == POSTGRESQL {
        tail := "IF NOT EXISTS " + tail;
      } else {
        assert tail == "" + tail;
      }
      r := Ok(head + tail);
    }

    /** build: the text prepared as it is, nothing bound. */
    method Build(d: DatabaseType) returns (r: Result<PreparedStatement>)
      ensures ViewText(viewName, selectQuery, selectSql, orReplace, ifNotExists, d).Ok? ==>
        r == Ok(PrepareOnly(ViewText(viewName, selectQuery, selectSql, orReplace, ifNotExists, d).value))
      ensures ViewText(viewName, selectQuery, selectSql, orReplace, ifNotExists, d).Err? ==>
        r == Err(ViewText(viewName, selectQuery, selectSql, orReplace, ifNotExists, d).error)
    {
      var sql :- GetSql(d);
      r := Ok(PrepareOnly(sql));
    }
  }

  /** On a builder in its valid state the "Select query must be specified"
      check fires exactly when neither as(...) has succeeded. */
  lemma ValidViewText(viewName: string, selectQuery: Option<string>, selectSql: Option<SelectText>,
                      orReplace: bool, ifNotExists: bool, d: DatabaseType)
    requires selectQuery.Some? ==> |selectQuery.value| > 0
    ensures ViewText(Some(viewName), selectQuery, selectSql, orReplace, ifNotExists, d).Ok?
        <==> (selectSql.Some? || selectQuery.Some?) && !(orReplace && d == SQLITE)
  {
  }

  /** SQL.createView() */
  method NewCreateView() returns (s: CreateViewSQL)
    ensures fresh(s) && s.Valid()
    ensures s.viewName == None && s.selectQuery == None && s.selectSql == None && !s.orReplace && !s.ifNotExists
  {
    s := new CreateViewSQL();
  }
}
