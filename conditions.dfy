/** WHERE fragments: the Conditions factories and SimpleCondition, an
    immutable (column, operator, value) triple rendered as `column op ?`
    with its value as the single parameter. */
module Conditions {
  import opened Text
  import opened Wrappers
  import opened Values

  datatype Condition =
    /** SimpleCondition(column, operator, value) */
    | Simple(column: string, operator: string, value: Value)
    /** A condition this model does not render itself (the AppendableCondition
        that and/or build is not part of this model), known by what its
        getSql and getParameters return. */
    | External(sql: string, parameters: seq<Value>)

  /** Condition.getSql */
  function GetSql(c: Condition): string
  {
    match c
    case Simple(column, operator, _) => column + " " + operator + " ?"
    case External(sql, _) => sql
  }

  /** A SimpleCondition's text starts with its column verbatim, ends with
      the placeholder getSql appends, and holds the column's and operator's
      '?'s plus that one. */
  lemma SimpleSqlShape(column: string, operator: string, value: Value)
    ensures StartsWith(GetSql(Simple(column, operator, value)), column)
    ensures GetSql(Simple(column, operator, value))[|column| + 1 + |operator|..] == " ?"
    ensures Occurrences(GetSql(Simple(column, operator, value)), '?')
        == Occurrences(column, '?') + Occurrences(operator, '?') + 1
  {
    var r := GetSql(Simple(column, operator, value));
    assert r == column + " " + operator + " ?";
    assert r[..|column|] == column;
    OccurrencesConcat(column, " ", '?');
    OccurrencesConcat(column + " ", operator, '?');
    OccurrencesConcat(column + " " + operator, " ?", '?');
    PlaceholderCount();
  }

  /** The placeholder getSql appends, alone and after its blank. */
  lemma PlaceholderCount()
    ensures Occurrences("?", '?') == 1 && Occurrences(" ", '?') == 0
    ensures Occurrences(" ?", '?') == 1
  {
    assert "?"[1..] == [];
    NoOccurrences(" ", '?');
    OccurrencesConcat(" ", "?", '?');
  }

  /** Condition.getParameters: a SimpleCondition always yields the one
      stored value, whatever it is (a list included). */
  function GetParameters(c: Condition): (r: seq<Value>)
    ensures c.Simple? ==> |r| == 1 && r[0] == c.value
  {
    match c
    case Simple(_, _, value) => [value]
    case External(_, parameters) => parameters
  }

  /** The condition's text holds as many placeholders as it has parameters:
      what SQL.build checks. */
  predicate Balanced(c: Condition)
  {
    Occurrences(GetSql(c), '?') == |GetParameters(c)|
  }

  /** What a builder appends for its nullable whereCondition:
      ` WHERE ` and the condition's text, or nothing. */
  function WhereClause(where: Option<Condition>): string
  {
    if where.Some? then " WHERE " + GetSql(where.value) else ""
  }

  /** What a builder adds to its parameters for its nullable whereCondition. */
  function WhereParameters(where: Option<Condition>): (r: seq<Value>)
    ensures where.None? ==> r == []
    ensures where.Some? ==> r == GetParameters(where.value)
  {
    if where.Some? then GetParameters(where.value) else []
  }

  /** The WHERE clause holds exactly the condition's placeholders. */
  lemma WhereClauseCount(where: Option<Condition>)
    ensures Occurrences(WhereClause(where), '?')
        == if where.Some? then Occurrences(GetSql(where.value), '?') else 0
  {
    if where.Some? {
      OccurrencesConcat(" WHERE ", GetSql(where.value), '?');
      NoOccurrences(" WHERE ", '?');
    }
  }

  /** A builder's WHERE part is balanced exactly when there is no condition
      or the condition is balanced. */
  lemma WhereBalancedIff(where: Option<Condition>)
    ensures Occurrences(WhereClause(where), '?') == |WhereParameters(where)|
        <==> where.None? || Balanced(where.value)
  {
    WhereClauseCount(where);
  }

  function Eq(column: string, value: Value): Condition { Simple(column, "=", value) }
  function Ne(column: string, value: Value): Condition { Simple(column, "<>", value) }
  function Gt(column: string, value: Value): Condition { Simple(column, ">", value) }
  function Lt(column: string, value: Value): Condition { Simple(column, "<", value) }

  /** like(column, pattern); a null pattern is bound as null. */
  function Like(column: string, pattern: Option<string>): Condition
  {
    Simple(column, "LIKE", if pattern.Some? then Str(pattern.value) else Null)
  }

  function IsNull(column: string): Condition { Simple(column, "IS", Null) }
  function IsNotNull(column: string): Condition { Simple(column, "IS NOT", Null) }

  /** in(column, values): the operator carries its own placeholder list and
      the whole list is the one value. */
  function In(column: string, values: seq<Value>): Condition
  {
    Simple(column, "IN (" + Placeholders(|values|) + ")", ListOf(values))
  }

  function NotIn(column: string, values: seq<Value>): Condition
  {
    Simple(column, "NOT IN (" + Placeholders(|values|) + ")", ListOf(values))
  }

  function Between(column: string, lower: Value, upper: Value): Condition
  {
    Simple(column, "BETWEEN ? AND ?", ListOf([lower, upper]))
  }

  /** The comparison factories render `column op ?` with the given value
      as the only parameter; the column is used verbatim (never validated). */
  lemma ComparisonRendering(column: string, value: Value, pattern: string)
    ensures GetSql(Eq(column, value)) == column + " = ?" && GetParameters(Eq(column, value)) == [value]
    ensures GetSql(Ne(column, value)) == column + " <> ?" && GetParameters(Ne(column, value)) == [value]
    ensures GetSql(Gt(column, value)) == column + " > ?" && GetParameters(Gt(column, value)) == [value]
    ensures GetSql(Lt(column, value)) == column + " < ?" && GetParameters(Lt(column, value)) == [value]
    ensures GetSql(Like(column, Some(pattern))) == column + " LIKE ?"
    ensures GetParameters(Like(column, Some(pattern))) == [Str(pattern)]
  {
  }

  /** isNull / isNotNull render `column IS ?` / `column IS NOT ?` and bind
      a null. */
  lemma NullCheckRendering(column: string)
    ensures GetSql(IsNull(column)) == column + " IS ?" && GetParameters(IsNull(column)) == [Null]
    ensures GetSql(IsNotNull(column)) == column + " IS NOT ?" && GetParameters(IsNotNull(column)) == [Null]
  {
  }

  /** A SimpleCondition is balanced exactly when neither its column nor its
      operator holds a '?'. */
  lemma SimpleBalancedIff(column: string, operator: string, value: Value)
    ensures Balanced(Simple(column, operator, value))
        <==> Occurrences(column, '?') == 0 && Occurrences(operator, '?') == 0
  {
    SimpleSqlShape(column, operator, value);
  }

  /** A '?'-free column with an operator that holds no '?' makes a balanced
      SimpleCondition. */
  lemma SimpleBalanced(column: string, operator: string, value: Value)
    requires Occurrences(column, '?') == 0
    requires '?' !in operator
    ensures Balanced(Simple(column, operator, value))
  {
    NoOccurrences(operator, '?');
    SimpleBalancedIff(column, operator, value);
  }

  /** Every single-value factory is balanced when the column holds no '?'. */
  lemma ComparisonsBalanced(column: string, value: Value)
    requires Occurrences(column, '?') == 0
    ensures Balanced(Eq(column, value)) && Balanced(Ne(column, value))
    ensures Balanced(Gt(column, value)) && Balanced(Lt(column, value))
  {
    SimpleBalanced(column, "=", value);
    SimpleBalanced(column, "<>", value);
    SimpleBalanced(column, ">", value);
    SimpleBalanced(column, "<", value);
  }

  lemma LikeBalanced(column: string, pattern: Option<string>)
    requires Occurrences(column, '?') == 0
    ensures Balanced(Like(column, pattern))
  {
    SimpleBalanced(column, "LIKE", Like(column, pattern).value);
  }

  lemma IsNullBalanced(column: string)
    requires Occurrences(column, '?') == 0
    ensures Balanced(IsNull(column))
  {
    SimpleBalanced(column, "IS", Null);
  }

  lemma IsNotNullBalanced(column: string)
    requires Occurrences(column, '?') == 0
    ensures Balanced(IsNotNull(column))
  {
    SimpleBalanced(column, "IS NOT", Null);
  }

  /** in / notIn with n values: n + 1 placeholders (the n of the operator
      and the trailing one getSql appends) against the one list parameter. */
  lemma InPlaceholderCount(column: string, values: seq<Value>)
    ensures Occurrences(GetSql(In(column, values)), '?') == Occurrences(column, '?') + |values| + 1
    ensures Occurrences(GetSql(NotIn(column, values)), '?') == Occurrences(column, '?') + |values| + 1
    ensures GetParameters(In(column, values)) == [ListOf(values)]
    ensures GetParameters(NotIn(column, values)) == [ListOf(values)]
  {
    PlaceholdersCount(|values|);
    var p := Placeholders(|values|);
    OperatorCount("IN (", p);
    OperatorCount("NOT IN (", p);
    SimpleSqlShape(column, "IN (" + p + ")", ListOf(values));
    SimpleSqlShape(column, "NOT IN (" + p + ")", ListOf(values));
  }

  lemma OperatorCount(head: string, p: string)
    requires Occurrences(head, '?') == 0
    ensures Occurrences(head + p + ")", '?') == Occurrences(p, '?')
  {
    OccurrencesConcat(head, p, '?');
    OccurrencesConcat(head + p, ")", '?');
    NoOccurrences(")", '?');
  }

  /** An in / notIn with a '?'-free column is balanced exactly when its list
      is empty. */
  lemma InBalancedIffEmpty(column: string, values: seq<Value>)
    requires Occurrences(column, '?') == 0
    ensures Balanced(In(column, values)) <==> |values| == 0
    ensures Balanced(NotIn(column, values)) <==> |values| == 0
  {
    InPlaceholderCount(column, values);
  }

  /** The empty list is accepted and renders `column IN () ?`. */
  lemma InEmptyRendering(column: string)
    ensures GetSql(In(column, [])) == column + " IN () ?"
    ensures GetSql(NotIn(column, [])) == column + " NOT IN () ?"
  {
    assert Placeholders(0) == "";
  }

  /** between renders `column BETWEEN ? AND ? ?` with one two-element list
      as its parameter. */
  lemma BetweenRendering(column: string, lower: Value, upper: Value)
    ensures GetSql(Between(column, lower, upper)) == column + " BETWEEN ? AND ? ?"
    ensures GetParameters(Between(column, lower, upper)) == [ListOf([lower, upper])]
  {
  }

  /** The between operator carries two placeholders of its own. */
  lemma BetweenOperatorCount()
    ensures Occurrences("BETWEEN ? AND ?", '?') == 2
  {
    var a, b := "BETWEEN ", " AND ";
    assert "?"[1..] == [];
    NoOccurrences(a, '?');
    NoOccurrences(b, '?');
    OccurrencesConcat(a, "?", '?');
    OccurrencesConcat(a + "?", b, '?');
    OccurrencesConcat(a + "?" + b, "?", '?');
    assert a + "?" + b + "?" == "BETWEEN ? AND ?";
  }

  /** between holds three placeholders against that one parameter, so SQL.build
      rejects every statement that uses it. */
  lemma BetweenUnbalanced(column: string, lower: Value, upper: Value)
    ensures Occurrences(GetSql(Between(column, lower, upper)), '?') == Occurrences(column, '?') + 3
    ensures !Balanced(Between(column, lower, upper))
  {
    BetweenOperatorCount();
    SimpleSqlShape(column, "BETWEEN ? AND ?", ListOf([lower, upper]));
  }
}
