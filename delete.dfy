/** DeleteSQL: `DELETE FROM t` with an optional WHERE condition; the same
    text for every dialect. */
module DeleteSql {
  import opened Text
  import opened Wrappers
  import opened Values
  import opened Errors
  import opened Sql
  import opened Conditions
  import opened DatabaseTypes

  /** The text one getSql call renders, whatever the dialect. */
  function DeleteText(table: Option<string>, where: Option<Condition>): string
  {
    "DELETE FROM " + (AppendText(table) + WhereClause(where))
  }

  /** The text starts with `DELETE FROM ` and the table, and goes on with
      ` WHERE ` exactly when a condition is set. */
  lemma DeleteShape(table: Option<string>, where: Option<Condition>)
    requires table.Some? ==> IsIdentifier(table.value)
    ensures StartsWith(DeleteText(table, where), "DELETE FROM " + AppendText(table))
    ensures where.None? ==> DeleteText(table, where) == "DELETE FROM " + AppendText(table)
    ensures where.Some? ==>
      DeleteText(table, where) == "DELETE FROM " + AppendText(table) + " WHERE " + GetSql(where.value)
  {
    var head := "DELETE FROM " + AppendText(table);
    ConcatAssociative("DELETE FROM ", AppendText(table), WhereClause(where));
    StartsWithConcat(head, WhereClause(where));
    if where.Some? {
      ConcatAssociative(head, " WHERE ", GetSql(where.value));
    }
  }

  /** A valid DELETE holds exactly the condition's placeholders. */
  lemma DeletePlaceholders(table: Option<string>, where: Option<Condition>)
    requires table.Some? ==> IsIdentifier(table.value)
    ensures Occurrences(DeleteText(table, where), '?') == Occurrences(WhereClause(where), '?')
  {
    var head := "DELETE FROM " + AppendText(table);
    if table.Some? {
      IdentifierAvoids(table.value, '?');
    }
    assert '?' !in head;
    NoOccurrences(head, '?');
    ConcatAssociative("DELETE FROM ", AppendText(table), WhereClause(where));
    OccurrencesConcat(head, WhereClause(where), '?');
  }

  /** build on a valid DELETE fails exactly when its condition is
      unbalanced; with no condition it binds nothing. */
  lemma DeleteBuildSucceedsIff(table: Option<string>, where: Option<Condition>)
    requires table.Some? ==> IsIdentifier(table.value)
    ensures BuildResult(DeleteText(table, where), WhereParameters(where)).Ok?
        <==> where.None? || Balanced(where.value)
    ensures where.None? ==>
      BuildResult(DeleteText(table, where), WhereParameters(where)) == Ok(PrepareOnly(DeleteText(table, where)))
  {
    DeletePlaceholders(table, where);
    WhereBalancedIff(where);
    if where.None? {
      assert Bound([], 0) == map[];
    }
  }

  class DeleteSQL {
    var table: Option<string>
    var whereCondition: Option<Condition>
    /** The parameter list inherited from SQL. */
    var parameters: seq<Value>

    predicate Valid()
      reads this
    {
      table.Some? ==> IsIdentifier(table.value)
    }

    constructor()
      ensures Valid() && table == None && whereCondition == None && parameters == []
    {
      table := None;
      whereCondition := None;
      parameters := [];
    }

    /** from(table): validated before it is stored. */
    method From(table: string) returns (r: Result<()>)
      requires Valid()
      modifies this
      ensures Valid()
      ensures r == ValidateIdentifier(table)
      ensures this.table == if r.Ok? then Some(table) else old(this.table)
      ensures whereCondition == old(whereCondition) && parameters == old(parameters)
    {
      r := ValidateIdentifier(table);
      if r.Ok? {
        this.table := Some(table);
      }
    }

    /** where(condition); a null condition removes the clause. */
    method Where(condition: Option<Condition>)
      modifies this
      ensures whereCondition == condition
      ensures table == old(table) && parameters == old(parameters)
    {
      whereCondition := condition;
    }

    /** getSql(type): the dialect is not consulted; the condition's
        parameters are appended to what the list already held. */
    method GetSql(d: DatabaseType) returns (sql: string)
      modifies this
      ensures sql == DeleteText(table, whereCondition)
      ensures parameters == old(parameters) + WhereParameters(whereCondition)
      ensures table == old(table) && whereCondition == old(whereCondition)
    {
      var body := AppendText(table);
      if whereCondition.Some? {
        body := body + " WHERE " + Conditions.GetSql(whereCondition.value);
        parameters := parameters + GetParameters(whereCondition.value);
      }
      sql := "DELETE FROM " + body;
    }

    /** build: clears the parameters, renders once, then checks and binds. */
    method Build(d: DatabaseType) returns (r: Result<PreparedStatement>)
      modifies this
      ensures parameters == WhereParameters(whereCondition)
      ensures r == BuildResult(DeleteText(table, whereCondition), parameters)
      ensures table == old(table) && whereCondition == old(whereCondition)
    {
      parameters := [];
      var sql := GetSql(d);
      r := BindParameters(sql, parameters);
    }
  }

  /** SQL.delete() */
  method NewDelete() returns (s: DeleteSQL)
    ensures fresh(s) && s.Valid()
    ensures s.table == None && s.whereCondition == None && s.parameters == []
  {
    s := new DeleteSQL();
  }
}
