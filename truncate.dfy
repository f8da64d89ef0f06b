/** TruncateSQL: `TRUNCATE TABLE t`, with RESTART IDENTITY and CASCADE
    rendered for PostgreSQL only. */
module TruncateSql {
  import opened Text
  import opened Wrappers
  import opened Errors
  import opened Sql
  import opened DatabaseTypes

  /** The PostgreSQL options, in their fixed order. */
  function TruncateOptions(restartIdentity: bool, cascade: bool): string
  {
    (if restartIdentity then " RESTART IDENTITY" else "") + (if cascade then " CASCADE" else "")
  }

  /** getSql(type). */
  function TruncateText(tableName: Option<string>, restartIdentity: bool, cascade: bool, d: DatabaseType): Result<string>
  {
    if tableName.None? then Err(IllegalState("Table name must be specified"))
    else if d == POSTGRESQL then Ok("TRUNCATE TABLE " + tableName.value + TruncateOptions(restartIdentity, cascade))
    else Ok("TRUNCATE TABLE " + tableName.value)
  }

  /** The options are ignored off PostgreSQL; on PostgreSQL they follow the
      table, RESTART IDENTITY before CASCADE. */
  lemma TruncateByDialect(tableName: string, restartIdentity: bool, cascade: bool, d: DatabaseType)
    ensures d != POSTGRESQL ==> TruncateText(Some(tableName), restartIdentity, cascade, d) == Ok("TRUNCATE TABLE " + tableName)
    ensures d == POSTGRESQL && !restartIdentity && !cascade ==>
      TruncateText(Some(tableName), restartIdentity, cascade, d) == Ok("TRUNCATE TABLE " + tableName)
    ensures d == POSTGRESQL && restartIdentity && cascade ==>
      TruncateText(Some(tableName), restartIdentity, cascade, d)
        == Ok("TRUNCATE TABLE " + tableName + " RESTART IDENTITY CASCADE")
    ensures d == POSTGRESQL && restartIdentity && !cascade ==>
      TruncateText(Some(tableName), restartIdentity, cascade, d) == Ok("TRUNCATE TABLE " + tableName + " RESTART IDENTITY")
    ensures d == POSTGRESQL && !restartIdentity && cascade ==>
      TruncateText(Some(tableName), restartIdentity, cascade, d) == Ok("TRUNCATE TABLE " + tableName + " CASCADE")
  {
    var head := "TRUNCATE TABLE " + tableName;
    if d == POSTGRESQL {
      var options := TruncateOptions(restartIdentity, cascade);
      if restartIdentity && cascade {
        assert options == " RESTART IDENTITY CASCADE";
      } else if restartIdentity {
        assert options == " RESTART IDENTITY";
      } else if cascade {
        assert options == " CASCADE";
      } else {
        assert options == "";
        assert head + options == head;
      }
    }
  }

  /** getSql fails, before the dialect is consulted, exactly when no table
      was set; the text then names the table right after the keywords. */
  lemma TruncateNeedsTable(tableName: Option<string>, restartIdentity: bool, cascade: bool, d: DatabaseType)
    ensures TruncateText(tableName, restartIdentity, cascade, d).Err? <==> tableName.None?
    ensures tableName.None? ==>
      TruncateText(tableName, restartIdentity, cascade, d) == Err(IllegalState("Table name must be specified"))
    ensures tableName.Some? ==>
      StartsWith(TruncateText(tableName, restartIdentity, cascade, d).value, "TRUNCATE TABLE " + tableName.value)
  {
    if tableName.Some? && d == POSTGRESQL {
      StartsWithConcat("TRUNCATE TABLE " + tableName.value, TruncateOptions(restartIdentity, cascade));
    } else if tableName.Some? {
      assert TruncateText(tableName, restartIdentity, cascade, d).value[..|"TRUNCATE TABLE " + tableName.value|]
        == "TRUNCATE TABLE " + tableName.value;
    }
  }

  class TruncateSQL {
    var tableName: Option<string>
    var restartIdentity: bool
    var cascade: bool

    constructor()
      ensures tableName == None && !restartIdentity && !cascade
    {
      tableName := None;
      restartIdentity := false;
      cascade := false;
    }

    method Table(tableName: string) returns (r: Result<()>)
      modifies this
      ensures r == ValidateIdentifier(tableName)
      ensures this.tableName == if r.Ok? then Some(tableName) else old(this.tableName)
      ensures restartIdentity == old(restartIdentity) && cascade == old(cascade)
    {
      r := ValidateIdentifier(tableName);
      if r.Ok? {
        this.tableName := Some(tableName);
      }
    }

    method RestartIdentity()
      modifies this
      ensures restartIdentity && tableName == old(tableName) && cascade == old(cascade)
    {
      restartIdentity := true;
    }

    method Cascade()
      modifies this
      ensures cascade && tableName == old(tableName) && restartIdentity == old(restartIdentity)
    {
      cascade := true;
    }

    method GetSql(d: DatabaseType) returns (r: Result<string>)
      ensures r == TruncateText(tableName, restartIdentity, cascade, d)
    {
      if tableName.None? {
        return Err(IllegalState("Table name must be specified"));
      }
      if d == POSTGRESQL {
        var options := "";
        if restartIdentity {
          options := options + " RESTART IDENTITY";
        }
        if cascade {
          options := options + " CASCADE";
        }
        assert options == TruncateOptions(restartIdentity, cascade);
        r := Ok("TRUNCATE TABLE " + tableName.value + options);
      } else {
        r := Ok("TRUNCATE TABLE " + tableName.value);
      }
    }

    /** build: the text prepared as it is, nothing bound. */
    method Build(d: DatabaseType) returns (r: Result<PreparedStatement>)
      ensures TruncateText(tableName, restartIdentity, cascade, d).Ok? ==>
        r == Ok(PrepareOnly(TruncateText(tableName, restartIdentity, cascade, d).value))
      ensures TruncateText(tableName, restartIdentity, cascade, d).Err? ==>
        r == Err(TruncateText(tableName, restartIdentity, cascade, d).error)
    {
      var sql :- GetSql(d);
      r := Ok(PrepareOnly(sql));
    }
  }

  /** SQL.truncate() */
  method NewTruncate() returns (s: TruncateSQL)
    ensures fresh(s) && s.tableName == None && !s.restartIdentity && !s.cascade
  {
    s := new TruncateSQL();
  }
}
