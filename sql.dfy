/** The abstract SQL builder base: identifier validation, the placeholder
    counter and the shared `build` step that checks the rendered text
    against the collected parameters and binds them positionally. */
module Sql {
  import opened Text
  import opened Values
  import opened Errors

  predicate IsIdentifierStart(c: char)
  {
    'a' <= c <= 'z' || 'A' <= c <= 'Z' || c == '_'
  }

  predicate IsIdentifierPart(c: char)
  {
    IsIdentifierStart(c) || '0' <= c <= '9'
  }

  /** The language of the pattern [a-zA-Z_][a-zA-Z0-9_]*. */
  predicate IsIdentifier(s: string)
  {
    |s| > 0 && IsIdentifierStart(s[0]) && forall k :: 1 <= k < |s| ==> IsIdentifierPart(s[k])
  }

  /** validateIdentifier: returns normally exactly for identifiers, and
      otherwise throws IllegalIdentifierException naming the input. */
  function ValidateIdentifier(identifier: string): (r: Result<()>)
    ensures r.Ok? <==> IsIdentifier(identifier)
    ensures r.Err? ==> r.error == IllegalIdentifier(identifier)
  {
    if IsIdentifier(identifier) then Ok(()) else Err(IllegalIdentifier(identifier))
  }

  /** validateIdentifier over a list of names, as the for loops of
      addPrimaryKey, addUnique and columns run it: the first name that is not
      an identifier is the one reported. */
  function ValidateAll(names: seq<string>): (r: Result<()>)
    ensures r.Ok? <==> forall i :: 0 <= i < |names| ==> IsIdentifier(names[i])
    decreases |names|
  {
    if |names| == 0 then Ok(())
    else if !IsIdentifier(names[0]) then Err(IllegalIdentifier(names[0]))
    else
      var rest := ValidateAll(names[1..]);
      assert forall i :: 1 <= i < |names| ==> names[i] == names[1..][i - 1];
      rest
  }

  /** The number of leading names that are identifiers. */
  function ValidPrefix(names: seq<string>): (n: nat)
    ensures n <= |names|
    ensures forall i :: 0 <= i < n ==> IsIdentifier(names[i])
    ensures n < |names| ==> !IsIdentifier(names[n])
    decreases |names|
  {
    if |names| == 0 || !IsIdentifier(names[0]) then 0
    else
      var rest := ValidPrefix(names[1..]);
      assert forall i :: 1 <= i < |names| ==> names[i] == names[1..][i - 1];
      1 + rest
  }

  /** validateIdentifier over the list stops at the first name outside the
      valid prefix. */
  lemma {:induction false} ValidateAllAtPrefix(names: seq<string>)
    ensures ValidateAll(names)
        == if ValidPrefix(names) == |names| then Ok(()) else Err(IllegalIdentifier(names[ValidPrefix(names)]))
    decreases |names|
  {
    if |names| > 0 && IsIdentifier(names[0]) {
      ValidateAllAtPrefix(names[1..]);
    }
  }

  /** An identifier holds no character that has meaning in the rendered
      statement: no placeholder, no ':' separator, no blank, no
      parenthesis, no comma, no ';'. */
  lemma IdentifierAvoids(s: string, c: char)
    requires IsIdentifier(s)
    requires !IsIdentifierPart(c)
    ensures c !in s && Occurrences(s, c) == 0 && !Contains(s, c)
  {
    forall k | 0 <= k < |s| ensures s[k] != c {
      assert IsIdentifierPart(s[k]);
    }
    NoOccurrences(s, c);
  }

  /** A statement prepared against the connection: its text and the
      parameter bound at each 1-based position. */
  datatype PreparedStatement = PreparedStatement(sql: string, bindings: map<int, Value>)

  /** What SQL.build does with the rendered text and the parameters one
      render collected: mismatch of placeholder and parameter counts throws
      SQLException; otherwise parameter i is bound at position i + 1. */
  function BuildResult(sql: string, parameters: seq<Value>): (r: Result<PreparedStatement>)
    ensures r.Ok? <==> |parameters| == Occurrences(sql, '?')
    ensures r.Err? ==> r.error == ParameterCountMismatch(Occurrences(sql, '?'), |parameters|)
    ensures r.Ok? ==> r.value.sql == sql
    ensures r.Ok? ==> forall p :: p in r.value.bindings <==> 1 <= p <= |parameters|
    ensures r.Ok? ==> forall i :: 0 <= i < |parameters| ==> r.value.bindings[i + 1] == parameters[i]
  {
    if |parameters| == Occurrences(sql, '?') then
      Ok(PreparedStatement(sql, Bound(parameters, |parameters|)))
    else
      Err(ParameterCountMismatch(Occurrences(sql, '?'), |parameters|))
  }

  /** The bindings after the first n calls stmt.setObject(i + 1, parameters[i]). */
  function Bound(parameters: seq<Value>, n: nat): (m: map<int, Value>)
    requires n <= |parameters|
    ensures forall p :: p in m <==> 1 <= p <= n
    ensures forall i :: 0 <= i < n ==> m[i + 1] == parameters[i]
  {
    if n == 0 then map[] else Bound(parameters, n - 1)[n := parameters[n - 1]]
  }

  /** What the builders that override build (ALTER TABLE, CREATE INDEX,
      CREATE VIEW, TRUNCATE) return: the text prepared, nothing bound. */
  function PrepareOnly(sql: string): (s: PreparedStatement)
    ensures s.sql == sql && s.bindings == map[]
  {
    PreparedStatement(sql, map[])
  }

  /** countParametersInSql: repeated indexOf('?', index + 1) from -1. */
  method CountParametersInSql(sql: string) returns (count: nat)
    ensures count == Occurrences(sql, '?')
  {
    count := 0;
    var index := IndexOf(sql, '?', 0);
    if index != -1 {
      NoOccurrences(sql[..index], '?');
    } else {
      NoOccurrences(sql, '?');
    }
    while index != -1
      invariant -1 <= index < |sql|
      invariant index != -1 ==> sql[index] == '?' && count == Occurrences(sql[..index], '?')
      invariant index == -1 ==> count == Occurrences(sql, '?')
      decreases if index == -1 then 0 else |sql| - index
    {
      count := count + 1;
      var next := IndexOf(sql, '?', index + 1);
      SkipCount(sql, index, next);
      index := next;
    }
  }

  /** From the placeholder at i up to the next one (or the end), the count
      grows by exactly one. */
  lemma SkipCount(sql: string, i: nat, next: int)
    requires i < |sql| && sql[i] == '?'
    requires next == IndexOf(sql, '?', i + 1)
    ensures next != -1 ==> Occurrences(sql[..next], '?') == Occurrences(sql[..i], '?') + 1
    ensures next == -1 ==> Occurrences(sql, '?') == Occurrences(sql[..i], '?') + 1
  {
    var end := if next == -1 then |sql| else next;
    var gap := sql[i + 1..end];
    assert forall k :: 0 <= k < |gap| ==> gap[k] != '?' by {
      forall k | 0 <= k < |gap| ensures gap[k] != '?' {
        assert gap[k] == sql[i + 1 + k];
      }
    }
    NoOccurrences(gap, '?');
    PlaceholderThenGap(sql, i, end);
    if next == -1 {
      assert sql[..end] == sql;
    }
  }

  /** A prefix that ends in one placeholder followed by a '?'-free gap holds
      one more placeholder than the prefix before it. */
  lemma PlaceholderThenGap(sql: string, i: nat, end: nat)
    requires i < end <= |sql| && sql[i] == '?'
    requires Occurrences(sql[i + 1..end], '?') == 0
    ensures Occurrences(sql[..end], '?') == Occurrences(sql[..i], '?') + 1
  {
    var gap := sql[i + 1..end];
    assert sql[..end] == sql[..i] + ([sql[i]] + gap);
    assert ([sql[i]] + gap)[1..] == gap;
    OccurrencesConcat(sql[..i], [sql[i]] + gap, '?');
  }

  /** build for the builders that inherit it: the parameter check and the
      binding loop over the text and parameters of one render. */
  method BindParameters(sql: string, parameters: seq<Value>) returns (r: Result<PreparedStatement>)
    ensures r == BuildResult(sql, parameters)
  {
    var expected := CountParametersInSql(sql);
    if |parameters| != expected {
      return Err(ParameterCountMismatch(expected, |parameters|));
    }
    var bindings: map<int, Value> := map[];
    for i := 0 to |parameters|
      invariant bindings == Bound(parameters, i)
    {
      bindings := bindings[i + 1 := parameters[i]];
    }
    r := Ok(PreparedStatement(sql, bindings));
  }
}
