/** InsertSQL: the INSERT / upsert builder. Its column values live in an
    insertion-ordered map; a render resets the text but appends to the
    inherited parameter list, which only build clears. */
module InsertSql {
  import opened Text
  import opened Wrappers
  import opened Values
  import opened Errors
  import opened Sql
  import opened Conditions
  import opened DatabaseTypes

  /** The LinkedHashMap<String, Object> of column values: each column once,
      in the order of its first put, with its latest value. */
  datatype ColumnValues = ColumnValues(keys: seq<string>, entries: map<string, Value>)
  {
    predicate Valid()
    {
      (forall i, j :: 0 <= i < j < |keys| ==> keys[i] != keys[j])
      && (forall k :: k in entries ==> k in keys)
      && (forall i :: 0 <= i < |keys| ==> keys[i] in entries)
    }

    /** values(): the values in key order. */
    function Values(): (r: seq<Value>)
      requires Valid()
      ensures |r| == |keys|
      ensures forall i :: 0 <= i < |keys| ==> r[i] == entries[keys[i]]
    {
      seq(|keys|, i requires 0 <= i < |keys| => entries[keys[i]])
    }

    /** put(column, value): a new column goes last; an existing one keeps
        its position and takes the new value. */
    function Put(column: string, value: Value): (r: ColumnValues)
      requires Valid()
      ensures r.Valid()
      ensures r.entries == entries[column := value]
      ensures column in entries ==> r.keys == keys
      ensures column !in entries ==> r.keys == keys + [column]
    {
      ColumnValues(if column in entries then keys else keys + [column], entries[column := value])
    }
  }

  const NoValues := ColumnValues([], map[])

  /** After put, every earlier column stays where it was, and its value is
      the new one exactly when it is the column put. */
  lemma PutKeepsOrder(m: ColumnValues, column: string, value: Value, i: nat)
    requires m.Valid() && i < |m.keys|
    ensures m.Put(column, value).keys[i] == m.keys[i]
    ensures m.Put(column, value).Values()[i] == if m.keys[i] == column then value else m.Values()[i]
  {
  }

  /** Putting a column twice keeps one entry with the second value. */
  lemma PutTwice(m: ColumnValues, column: string, first: Value, second: Value)
    requires m.Valid()
    ensures m.Put(column, first).Put(column, second) == m.Put(column, second)
  {
    var once := m.Put(column, first);
    assert once.Put(column, second).keys == m.Put(column, second).keys;
    assert once.Put(column, second).entries == m.entries[column := second];
  }

  /** The start: `INSERT `, then `OR REPLACE ` for an SQLite upsert, then
      `INTO `. */
  function InsertHead(upsert: bool, d: DatabaseType): string
  {
    if upsert && d == SQLITE then "INSERT OR REPLACE INTO " else "INSERT INTO "
  }

  /** ` (c1, ..., ck) VALUES (?, ..., ?)`, or nothing for no values. */
  function ColumnList(keys: seq<string>): string
  {
    if |keys| == 0 then ""
    else " (" + Join(", ", keys) + ") VALUES (" + Placeholders(|keys|) + ")"
  }

  /** One entry of the MySQL update list. */
  function UpdateEntry(column: string): string
  {
    column + "=VALUES(" + column + ")"
  }

  function UpdateEntries(keys: seq<string>): (r: seq<string>)
    ensures |r| == |keys| && forall i :: 0 <= i < |keys| ==> r[i] == UpdateEntry(keys[i])
  {
    seq(|keys|, i requires 0 <= i < |keys| => UpdateEntry(keys[i]))
  }

  /** ` ON DUPLICATE KEY UPDATE c=VALUES(c), ...` for an upsert on MYSQL only. */
  function UpsertClause(upsert: bool, d: DatabaseType, keys: seq<string>): string
  {
    if upsert && d == MYSQL then " ON DUPLICATE KEY UPDATE " + Join(", ", UpdateEntries(keys)) else ""
  }

  /** The text one getSql(d) call renders. */
  function InsertText(upsert: bool, table: Option<string>, values: ColumnValues,
                      where: Option<Condition>, d: DatabaseType): string
  {
    InsertHead(upsert, d)
    + (AppendText(table) + ColumnList(values.keys) + UpsertClause(upsert, d, values.keys) + WhereClause(where))
  }

  /** The parameters one getSql call appends: the values in column order,
      then the condition's parameters. */
  function InsertParameters(values: ColumnValues, where: Option<Condition>): seq<Value>
    requires values.Valid()
  {
    values.Values() + WhereParameters(where)
  }

  /** The state every InsertSQL reaches: the table, when set, and every
      column passed validateIdentifier. */
  predicate ValidState(table: Option<string>, values: ColumnValues)
  {
    values.Valid()
    && (table.Some? ==> IsIdentifier(table.value))
    && (forall i :: 0 <= i < |values.keys| ==> IsIdentifier(values.keys[i]))
  }

  /** Whatever follows the head, the head decides the first words. */
  lemma HeadDecides(upsert: bool, d: DatabaseType, rest: string)
    ensures StartsWith(InsertHead(upsert, d) + rest, "INSERT OR REPLACE INTO ") <==> upsert && d == SQLITE
    ensures !(upsert && d == SQLITE) ==> StartsWith(InsertHead(upsert, d) + rest, "INSERT INTO ")
  {
    var h := InsertHead(upsert, d);
    StartsWithConcat(h, rest);
    if !(upsert && d == SQLITE) {
      assert (h + rest)[7] == h[7] == 'I';
    }
  }

  /** The text starts `INSERT OR REPLACE INTO ` exactly for an upsert on
      SQLite, and `INSERT INTO ` otherwise. */
  lemma InsertPrefix(upsert: bool, table: Option<string>, values: ColumnValues,
                     where: Option<Condition>, d: DatabaseType)
    ensures StartsWith(InsertText(upsert, table, values, where, d), "INSERT OR REPLACE INTO ")
        <==> upsert && d == SQLITE
    ensures !(upsert && d == SQLITE) ==> StartsWith(InsertText(upsert, table, values, where, d), "INSERT INTO ")
  {
    HeadDecides(upsert, d, AppendText(table) + ColumnList(values.keys)
        + UpsertClause(upsert, d, values.keys) + WhereClause(where));
  }

  /** An upsert on MariaDB or PostgreSQL renders exactly the plain insert:
      no conflict clause is emitted for them. */
  lemma UpsertIgnoredOn(table: Option<string>, values: ColumnValues, where: Option<Condition>, d: DatabaseType)
    requires d == MARIADB || d == POSTGRESQL
    ensures InsertText(true, table, values, where, d) == InsertText(false, table, values, where, d)
  {
  }

  lemma TableFree(table: Option<string>)
    requires table.Some? ==> IsIdentifier(table.value)
    ensures '?' !in AppendText(table)
  {
    if table.Some? {
      IdentifierAvoids(table.value, '?');
    }
  }

  lemma IdentifiersExclude(keys: seq<string>, c: char)
    requires forall i :: 0 <= i < |keys| ==> IsIdentifier(keys[i])
    requires !IsIdentifierPart(c)
    ensures forall i :: 0 <= i < |keys| ==> c !in keys[i]
  {
    forall i | 0 <= i < |keys| ensures c !in keys[i] {
      IdentifierAvoids(keys[i], c);
    }
  }

  /** The column list holds one placeholder per column. */
  lemma ColumnListCount(keys: seq<string>)
    requires forall i :: 0 <= i < |keys| ==> IsIdentifier(keys[i])
    ensures Occurrences(ColumnList(keys), '?') == |keys|
  {
    if |keys| > 0 {
      IdentifiersExclude(keys, '?');
      JoinExcludes(", ", keys, '?');
      var x := " (" + Join(", ", keys) + ") VALUES (";
      var p := Placeholders(|keys|);
      NoOccurrences(x, '?');
      NoOccurrences(")", '?');
      PlaceholdersCount(|keys|);
      OccurrencesConcat(x, p, '?');
      OccurrencesConcat(x + p, ")", '?');
    }
  }

  lemma UpsertClauseFree(upsert: bool, d: DatabaseType, keys: seq<string>)
    requires forall i :: 0 <= i < |keys| ==> IsIdentifier(keys[i])
    ensures '?' !in UpsertClause(upsert, d, keys)
  {
    if upsert && d == MYSQL {
      var entries := UpdateEntries(keys);
      forall i | 0 <= i < |entries| ensures '?' !in entries[i] {
        IdentifierAvoids(keys[i], '?');
      }
      JoinExcludes(", ", entries, '?');
    }
  }

  /** A valid builder's text holds one placeholder per column plus the
      condition's own. */
  lemma InsertPlaceholders(upsert: bool, table: Option<string>, values: ColumnValues,
                           where: Option<Condition>, d: DatabaseType)
    requires ValidState(table, values)
    ensures Occurrences(InsertText(upsert, table, values, where, d), '?')
        == |values.keys| + Occurrences(WhereClause(where), '?')
  {
    var h := InsertHead(upsert, d);
    var t := AppendText(table);
    var c := ColumnList(values.keys);
    var u := UpsertClause(upsert, d, values.keys);
    var w := WhereClause(where);
    assert InsertText(upsert, table, values, where, d) == h + (t + c + u + w);
    TableFree(table);
    UpsertClauseFree(upsert, d, values.keys);
    NoOccurrences(h, '?');
    NoOccurrences(t, '?');
    NoOccurrences(u, '?');
    ColumnListCount(values.keys);
    OccurrencesConcat(t, c, '?');
    OccurrencesConcat(t + c, u, '?');
    OccurrencesConcat(t + c + u, w, '?');
    OccurrencesConcat(h, t + c + u + w, '?');
  }

  /** build on a valid builder fails exactly when the condition is
      unbalanced: the values always match their placeholders. */
  lemma InsertBuildSucceedsIff(upsert: bool, table: Option<string>, values: ColumnValues,
                               where: Option<Condition>, d: DatabaseType)
    requires ValidState(table, values)
    ensures BuildResult(InsertText(upsert, table, values, where, d), InsertParameters(values, where)).Ok?
        <==> where.None? || Balanced(where.value)
  {
    InsertPlaceholders(upsert, table, values, where, d);
    WhereBalancedIff(where);
  }

  /** An insert whose condition is an in(...) over one or more values can
      never be built. */
  lemma InsertWithInFails(upsert: bool, table: Option<string>, values: ColumnValues,
                          column: string, items: seq<Value>, d: DatabaseType)
    requires ValidState(table, values)
    requires Occurrences(column, '?') == 0 && |items| > 0
    ensures BuildResult(InsertText(upsert, table, values, Some(In(column, items)), d),
                        InsertParameters(values, Some(In(column, items)))).Err?
  {
    InsertBuildSucceedsIff(upsert, table, values, Some(In(column, items)), d);
    InBalancedIffEmpty(column, items);
  }

  class InsertSQL {
    const upsert: bool
    var table: Option<string>
    var values: ColumnValues
    var whereCondition: Option<Condition>
    /** The parameter list inherited from SQL. */
    var parameters: seq<Value>

    predicate Valid()
      reads this
    {
      ValidState(table, values)
    }

    constructor(upsert: bool)
      ensures this.upsert == upsert && Valid()
      ensures table == None && values == NoValues && whereCondition == None && parameters == []
    {
      this.upsert := upsert;
      table := None;
      values := NoValues;
      whereCondition := None;
      parameters := [];
    }

    /** into(table): validated before it is stored. */
    method Into(table: string) returns (r: Result<()>)
      requires Valid()
      modifies this
      ensures Valid()
      ensures r == ValidateIdentifier(table)
      ensures this.table == if r.Ok? then Some(table) else old(this.table)
      ensures values == old(values) && whereCondition == old(whereCondition) && parameters == old(parameters)
    {
      r := ValidateIdentifier(table);
      if r.Ok? {
        this.table := Some(table);
      }
    }

    /** value(column, value): validated before it is put. */
    method Value(column: string, value: Value) returns (r: Result<()>)
      requires Valid()
      modifies this
      ensures Valid()
      ensures r == ValidateIdentifier(column)
      ensures values == if r.Ok? then old(values).Put(column, value) else old(values)
      ensures table == old(table) && whereCondition == old(whereCondition) && parameters == old(parameters)
    {
      r := ValidateIdentifier(column);
      if r.Ok? {
        values := values.Put(column, value);
      }
    }

    /** where(condition); a null condition removes the clause. */
    method Where(condition: Option<Condition>)
      modifies this
      ensures whereCondition == condition
      ensures table == old(table) && values == old(values) && parameters == old(parameters)
    {
      whereCondition := condition;
    }

    /** getSql(type): a fresh text, and the parameters appended to what
        the list already held. */
    method GetSql(d: DatabaseType) returns (sql: string)
      requires Valid()
      modifies this
      ensures Valid()
      ensures sql == InsertText(upsert, table, values, whereCondition, d)
      ensures parameters == old(parameters) + InsertParameters(values, whereCondition)
      ensures table == old(table) && values == old(values) && whereCondition == old(whereCondition)
    {
      var start := parameters;
      var head := InsertHead(upsert, d);
      var body := AppendText(table);
      var list := "";
      if |values.keys| > 0 {
        list := " (" + Join(", ", values.keys) + ") VALUES (" + Placeholders(|values.keys|) + ")";
        parameters := parameters + values.Values();
      } else {
        assert values.Values() == [];
      }
      assert parameters == start + values.Values();
      assert list == ColumnList(values.keys);
      body := body + list;
      var clause := "";
      if upsert && d == MYSQL {
        var updates := UpdateList(values.keys);
        clause := " ON DUPLICATE KEY UPDATE " + Join(", ", updates);
      }
      assert clause == UpsertClause(upsert, d, values.keys);
      body := body + clause;
      var condition := "";
      if whereCondition.Some? {
        condition := " WHERE " + Conditions.GetSql(whereCondition.value);
        parameters := parameters + GetParameters(whereCondition.value);
      }
      assert condition == WhereClause(whereCondition);
      body := body + condition;
      sql := head + body;
      assert parameters == start + values.Values() + WhereParameters(whereCondition);
      ConcatAssociative(start, values.Values(), WhereParameters(whereCondition));
    }

    /** build: clears the parameters, renders once, then checks and binds. */
    method Build(d: DatabaseType) returns (r: Result<PreparedStatement>)
      requires Valid()
      modifies this
      ensures Valid()
      ensures parameters == InsertParameters(values, whereCondition)
      ensures r == BuildResult(InsertText(upsert, table, values, whereCondition, d), parameters)
      ensures table == old(table) && values == old(values) && whereCondition == old(whereCondition)
    {
      parameters := [];
      var sql := GetSql(d);
      r := BindParameters(sql, parameters);
    }
  }

  /** The for loop of getSql that fills the `updates` list. */
  method UpdateList(keys: seq<string>) returns (updates: seq<string>)
    ensures updates == UpdateEntries(keys)
  {
    updates := [];
    for i := 0 to |keys|
      invariant |updates| == i
      invariant forall j :: 0 <= j < i ==> updates[j] == UpdateEntry(keys[j])
    {
      updates := updates + [keys[i] + "=VALUES(" + keys[i] + ")"];
    }
  }

  /** SQL.insert(): a builder that is not an upsert. */
  method NewInsert() returns (s: InsertSQL)
    ensures fresh(s) && !s.upsert && s.Valid()
    ensures s.table == None && s.values == NoValues && s.whereCondition == None && s.parameters == []
  {
    s := new InsertSQL(false);
  }

  /** SQL.upsert(): a builder that is an upsert. */
  method NewUpsert() returns (s: InsertSQL)
    ensures fresh(s) && s.upsert && s.Valid()
    ensures s.table == None && s.values == NoValues && s.whereCondition == None && s.parameters == []
  {
    s := new InsertSQL(true);
  }
}
