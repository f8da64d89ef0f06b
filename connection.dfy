/** The statement assembly of AbstractSQLConnection: which builder calls
    each object operation makes from a class's field descriptors. SELECT,
    UPDATE and CREATE TABLE builders are not part of this model, so the
    calls made on them are recorded as values; INSERT and DELETE go through
    the builders of this model. */
module Connection {
  import opened Wrappers
  import opened Text
  import opened Values
  import opened Errors
  import opened Sql
  import opened Conditions
  import opened DatabaseTypes
  import opened Serialization
  import InsertSql
  import DeleteSql

  const NoTableMessage := "the class must be annotated with @Table"
  const BlankTableMessage := "the table name cannot be empty"

  /** The @Table guard every object operation runs first. */
  function TableName(cls: ClassDescriptor): (r: Result<string>)
    ensures cls.table.None? ==> r == Err(IllegalArgument(NoTableMessage))
    ensures cls.table.Some? && IsBlank(cls.table.value) ==> r == Err(IllegalArgument(BlankTableMessage))
    ensures r.Ok? <==> cls.table.Some? && !IsBlank(cls.table.value)
    ensures r.Ok? ==> r.value == cls.table.value
  {
    if cls.table.None? then Err(IllegalArgument(NoTableMessage))
    else if IsBlank(cls.table.value) then Err(IllegalArgument(BlankTableMessage))
    else Ok(cls.table.value)
  }

  // ---------------------------------------------------------------------
  // selectOne, selectMulti

  /** The calls made on a SelectSQL: allColumns(), from(table), where(c)
      when given, limit(n) when given. */
  datatype SelectCall = SelectCall(allColumns: bool, table: string, where: Option<Condition>, limit: Option<int>)

  function SelectOneQuery(cls: ClassDescriptor, condition: Condition): Result<SelectCall>
  {
    var t :- TableName(cls);
    Ok(SelectCall(true, t, Some(condition), Some(1)))
  }

  function SelectMultiQuery(cls: ClassDescriptor, condition: Option<Condition>): Result<SelectCall>
  {
    var t :- TableName(cls);
    Ok(SelectCall(true, t, condition, None))
  }

  /** selectOne asks for every column of the table with its condition and
      a limit of one row; selectMulti asks for the same without a limit,
      with a WHERE only for a non-null condition. */
  lemma SelectQueries(cls: ClassDescriptor, condition: Condition, optional: Option<Condition>)
    ensures SelectOneQuery(cls, condition).Ok? <==> TableName(cls).Ok?
    ensures SelectMultiQuery(cls, optional).Ok? <==> TableName(cls).Ok?
    ensures TableName(cls).Ok? ==>
      SelectOneQuery(cls, condition).value == SelectMultiQuery(cls, Some(condition)).value.(limit := Some(1))
    ensures TableName(cls).Ok? ==>
      SelectMultiQuery(cls, optional).value == SelectCall(true, cls.table.value, optional, None)
  {
  }

  // ---------------------------------------------------------------------
  // createTableByClass

  /** The calls made on a CreateTableSQL for one column. */
  datatype ColumnCall =
    | Column(name: string, sqlType: string)
    | AutoIncrement(name: string)
    | PrimaryKey(name: string)
    | NotNull(name: string)
    | DefaultValue(name: string, value: string)

  datatype CreateTableCall = CreateTableCall(table: string, ifNotExists: bool, calls: seq<ColumnCall>)

  /** The calls for one @Column field: the column, then its flags. */
  function FieldCalls(f: Field, sqlType: string): seq<ColumnCall>
    requires f.column.Some?
  {
    [Column(ColumnName(f).value, sqlType)] + Flags(f)
  }

  /** The flag calls after the column: auto increment, primary key, not
      null, default value, each only when asked for; none declares a
      column. */
  function Flags(f: Field): (r: seq<ColumnCall>)
    requires f.column.Some?
    ensures forall k :: 0 <= k < |r| ==> !r[k].Column?
  {
    var c := f.column.value;
    FlagCalls(ColumnName(f).value, f.autoIncrement, f.primaryKey, !c.nullable,
              if IsBlank(c.defaultValue) then None else Some(c.defaultValue))
  }

  function FlagCalls(name: string, autoIncrement: bool, primaryKey: bool, notNull: bool,
                     defaultValue: Option<string>): (r: seq<ColumnCall>)
    ensures forall k :: 0 <= k < |r| ==> !r[k].Column?
  {
    (if autoIncrement then [AutoIncrement(name)] else [])
    + (if primaryKey then [PrimaryKey(name)] else [])
    + (if notNull then [NotNull(name)] else [])
    + (if defaultValue.Some? then [DefaultValue(name, defaultValue.value)] else [])
  }

  /** Each flag call is there exactly when its flag is set. */
  lemma FlagCallsMembers(name: string, autoIncrement: bool, primaryKey: bool, notNull: bool,
                         defaultValue: Option<string>)
    ensures AutoIncrement(name) in FlagCalls(name, autoIncrement, primaryKey, notNull, defaultValue) <==> autoIncrement
    ensures PrimaryKey(name) in FlagCalls(name, autoIncrement, primaryKey, notNull, defaultValue) <==> primaryKey
    ensures NotNull(name) in FlagCalls(name, autoIncrement, primaryKey, notNull, defaultValue) <==> notNull
    ensures defaultValue.Some? ==>
      DefaultValue(name, defaultValue.value) in FlagCalls(name, autoIncrement, primaryKey, notNull, defaultValue)
    ensures forall v :: DefaultValue(name, v) in FlagCalls(name, autoIncrement, primaryKey, notNull, defaultValue) ==>
      defaultValue == Some(v)
  {
  }

  /** createTableByClass's loop: getSqlType throwing ends it. */
  function TableCalls(fields: seq<Field>, converters: map<HostType, Converter>): Result<seq<ColumnCall>>
    decreases |fields|
  {
    if |fields| == 0 then Ok([])
    else
      var front :- TableCalls(fields[..|fields| - 1], converters);
      var f := fields[|fields| - 1];
      if f.column.None? then Ok(front)
      else
        var sqlType :- SqlTypeFor(f.fieldType, converters);
        Ok(front + FieldCalls(f, sqlType))
  }

  /** createTableByClass(clazz) against the converters before it, giving
      the converters after it. */
  function CreateTableSpec(converters: map<HostType, Converter>, cls: ClassDescriptor)
    : (map<HostType, Converter>, Result<CreateTableCall>)
  {
    match TableName(cls)
    case Err(e) => (converters, Err(e))
    case Ok(t) =>
      var s := ScanFields(converters, cls.declaredFields);
      if s.outcome.Err? then (s.converters, Err(s.outcome.error))
      else
        var calls := TableCalls(s.outcome.value, s.converters);
        (s.converters, if calls.Ok? then Ok(CreateTableCall(t, true, calls.value)) else Err(calls.error))
  }

  /** Each @Column field opens with its column and type, and no other call
      of the field declares a column. */
  lemma FieldCallsHead(f: Field, sqlType: string)
    requires f.column.Some?
    ensures FieldCalls(f, sqlType)[0] == Column(ColumnName(f).value, sqlType)
    ensures forall k :: 0 < k < |FieldCalls(f, sqlType)| ==> !FieldCalls(f, sqlType)[k].Column?
  {
    assert forall k :: 0 < k < |FieldCalls(f, sqlType)| ==> FieldCalls(f, sqlType)[k] == Flags(f)[k - 1];
  }

  /** A @Column field carries each flag exactly when its annotation asks
      for it. */
  lemma FieldCallsFlags(f: Field, sqlType: string)
    requires f.column.Some?
    ensures AutoIncrement(ColumnName(f).value) in FieldCalls(f, sqlType) <==> f.autoIncrement
    ensures PrimaryKey(ColumnName(f).value) in FieldCalls(f, sqlType) <==> f.primaryKey
    ensures NotNull(ColumnName(f).value) in FieldCalls(f, sqlType) <==> !f.column.value.nullable
    ensures DefaultValue(ColumnName(f).value, f.column.value.defaultValue) in FieldCalls(f, sqlType)
        <==> !IsBlank(f.column.value.defaultValue)
  {
    var c := f.column.value;
    FlagCallsMembers(ColumnName(f).value, f.autoIncrement, f.primaryKey, !c.nullable,
                     if IsBlank(c.defaultValue) then None else Some(c.defaultValue));
  }

  /** Every @Column field's type has an SQL type. */
  predicate AllTyped(fields: seq<Field>, converters: map<HostType, Converter>)
  {
    forall i :: 0 <= i < |fields| && fields[i].column.Some? ==> SqlTypeFor(fields[i].fieldType, converters).Ok?
  }

  /** The table is created exactly when every @Column field has an SQL
      type; without @Column a field is not a column. */
  lemma {:induction false} TableCallsOkIff(fields: seq<Field>, converters: map<HostType, Converter>)
    ensures TableCalls(fields, converters).Ok? <==> AllTyped(fields, converters)
    decreases |fields|
  {
    if |fields| > 0 {
      var front := fields[..|fields| - 1];
      TableCallsOkIff(front, converters);
      assert AllTyped(fields, converters) <==>
        AllTyped(front, converters)
        && (fields[|fields| - 1].column.Some? ==> SqlTypeFor(fields[|fields| - 1].fieldType, converters).Ok?) by {
        assert forall i :: 0 <= i < |front| ==> front[i] == fields[i];
      }
    }
  }

  /** The column(name, type) calls createTableByClass should make: one
      per @Column field, in field order. */
  function ColumnDecls(fields: seq<Field>, converters: map<HostType, Converter>): seq<ColumnCall>
    decreases |fields|
  {
    if |fields| == 0 then []
    else
      var f := fields[|fields| - 1];
      ColumnDecls(fields[..|fields| - 1], converters)
      + (if f.column.Some? && SqlTypeFor(f.fieldType, converters).Ok?
         then [Column(ColumnName(f).value, SqlTypeFor(f.fieldType, converters).value)] else [])
  }

  /** Among the calls, the column calls are exactly one per @Column field,
      in field order, each with the field's column name and SQL type. */
  lemma {:induction false} TableCallsColumns(fields: seq<Field>, converters: map<HostType, Converter>)
    requires TableCalls(fields, converters).Ok?
    ensures Columns(TableCalls(fields, converters).value) == ColumnDecls(fields, converters)
    ensures |ColumnDecls(fields, converters)| == |ColumnFields(fields)|
    decreases |fields|
  {
    if |fields| > 0 {
      var front := fields[..|fields| - 1];
      var f := fields[|fields| - 1];
      TableCallsColumns(front, converters);
      if f.column.Some? {
        var sqlType := SqlTypeFor(f.fieldType, converters).value;
        FieldCallsColumn(f, sqlType);
        ColumnsAppend(TableCalls(front, converters).value, FieldCalls(f, sqlType));
      }
    }
  }

  /** The calls for one field hold one column call, its first. */
  lemma FieldCallsColumn(f: Field, sqlType: string)
    requires f.column.Some?
    ensures Columns(FieldCalls(f, sqlType)) == [Column(ColumnName(f).value, sqlType)]
  {
    ColumnsAppend([Column(ColumnName(f).value, sqlType)], Flags(f));
    NoColumns(Flags(f));
    assert [Column(ColumnName(f).value, sqlType)][1..] == [];
  }

  /** The column calls among the calls. */
  function Columns(calls: seq<ColumnCall>): seq<ColumnCall>
    decreases |calls|
  {
    if |calls| == 0 then []
    else (if calls[0].Column? then [calls[0]] else []) + Columns(calls[1..])
  }

  /** The @Column fields. */
  function ColumnFields(fields: seq<Field>): (r: seq<Field>)
    ensures forall i :: 0 <= i < |r| ==> r[i].column.Some?
    decreases |fields|
  {
    if |fields| == 0 then []
    else ColumnFields(fields[..|fields| - 1]) + (if fields[|fields| - 1].column.Some? then [fields[|fields| - 1]] else [])
  }

  lemma {:induction false} ColumnsAppend(a: seq<ColumnCall>, b: seq<ColumnCall>)
    ensures Columns(a + b) == Columns(a) + Columns(b)
    decreases |a|
  {
    if |a| == 0 {
      assert a + b == b;
    } else {
      var head := if a[0].Column? then [a[0]] else [];
      assert (a + b)[0] == a[0];
      assert (a + b)[1..] == a[1..] + b;
      assert Columns(a + b) == head + Columns(a[1..] + b);
      ColumnsAppend(a[1..], b);
      ConcatAssociative(head, Columns(a[1..]), Columns(b));
    }
  }

  lemma {:induction false} NoColumns(calls: seq<ColumnCall>)
    requires forall k :: 0 <= k < |calls| ==> !calls[k].Column?
    ensures Columns(calls) == []
    decreases |calls|
  {
    if |calls| > 0 {
      NoColumns(calls[1..]);
    }
  }

  // ---------------------------------------------------------------------
  // insertObject

  /** f.get(object): a field the object has no entry for holds null. */
  function FieldValue(obj: Instance, f: Field): Value
  {
    if f.name in obj then obj[f.name] else Null
  }

  /** The value insertObject and updateObject store for a field. */
  function Stored(obj: Instance, f: Field, converters: map<HostType, Converter>, foreign: ForeignCode): Value
  {
    ConvertBackValue(FieldValue(obj, f), converters, foreign)
  }

  /** insertObject's value(columnName, convertBack(value)) calls, one per
      @Column field in field order; value throws on the first column name
      that is not an identifier. */
  function FillValues(fields: seq<Field>, obj: Instance, converters: map<HostType, Converter>, foreign: ForeignCode)
    : (r: Result<InsertSql.ColumnValues>)
    ensures r.Ok? ==> InsertSql.ValidState(None, r.value)
    decreases |fields|
  {
    if |fields| == 0 then Ok(InsertSql.NoValues)
    else
      var front :- FillValues(fields[..|fields| - 1], obj, converters, foreign);
      var f := fields[|fields| - 1];
      if f.column.None? then Ok(front)
      else
        var _ :- ValidateIdentifier(ColumnName(f).value);
        Ok(front.Put(ColumnName(f).value, Stored(obj, f, converters, foreign)))
  }

  /** The column names of the @Column fields, in field order. */
  function ColumnNames(fields: seq<Field>): seq<string>
    decreases |fields|
  {
    if |fields| == 0 then []
    else
      var f := fields[|fields| - 1];
      ColumnNames(fields[..|fields| - 1]) + (if f.column.Some? then [ColumnName(f).value] else [])
  }

  predicate DistinctColumns(fields: seq<Field>)
  {
    forall i, j :: 0 <= i < j < |ColumnNames(fields)| ==> ColumnNames(fields)[i] != ColumnNames(fields)[j]
  }

  /** The value calls succeed exactly when every column name is an
      identifier. */
  lemma {:induction false} FillValuesOkIff(fields: seq<Field>, obj: Instance,
                                           converters: map<HostType, Converter>, foreign: ForeignCode)
    ensures FillValues(fields, obj, converters, foreign).Ok? <==> AllIdentifiers(ColumnNames(fields))
    decreases |fields|
  {
    if |fields| > 0 {
      var front := fields[..|fields| - 1];
      var names := ColumnNames(fields);
      var frontNames := ColumnNames(front);
      var f := fields[|fields| - 1];
      FillValuesOkIff(front, obj, converters, foreign);
      var before := FillValues(front, obj, converters, foreign);
      var after := FillValues(fields, obj, converters, foreign);
      if f.column.None? {
        assert names == frontNames;
        assert after == before;
      } else {
        var name := ColumnName(f).value;
        assert names == frontNames + [name];
        assert AllIdentifiers(names) <==> AllIdentifiers(frontNames) && IsIdentifier(name) by {
          assert forall j :: 0 <= j < |frontNames| ==> names[j] == frontNames[j];
          assert names[|frontNames|] == name;
        }
      }
    }
  }

  predicate AllIdentifiers(names: seq<string>)
  {
    forall j :: 0 <= j < |names| ==> IsIdentifier(names[j])
  }

  /** The stored values of the @Column fields, in field order. */
  function StoredValues(fields: seq<Field>, obj: Instance, converters: map<HostType, Converter>, foreign: ForeignCode)
    : seq<Value>
    decreases |fields|
  {
    if |fields| == 0 then []
    else
      var f := fields[|fields| - 1];
      StoredValues(fields[..|fields| - 1], obj, converters, foreign)
      + (if f.column.Some? then [Stored(obj, f, converters, foreign)] else [])
  }

  /** With distinct column names, the columns appear in field order, each
      with the stored form of its field's value. */
  lemma {:induction false} FillValuesInFieldOrder(fields: seq<Field>, obj: Instance,
                                                  converters: map<HostType, Converter>, foreign: ForeignCode)
    requires DistinctColumns(fields)
    requires FillValues(fields, obj, converters, foreign).Ok?
    ensures FillValues(fields, obj, converters, foreign).value.keys == ColumnNames(fields)
    ensures FillValues(fields, obj, converters, foreign).value.Values() == StoredValues(fields, obj, converters, foreign)
    decreases |fields|
  {
    if |fields| > 0 {
      var front := fields[..|fields| - 1];
      var f := fields[|fields| - 1];
      var names := ColumnNames(fields);
      var frontNames := ColumnNames(front);
      assert DistinctColumns(front) by {
        assert forall j :: 0 <= j < |frontNames| ==> frontNames[j] == names[j];
      }
      FillValuesInFieldOrder(front, obj, converters, foreign);
      var before := FillValues(front, obj, converters, foreign).value;
      if f.column.Some? {
        var name := ColumnName(f).value;
        assert names == frontNames + [name];
        assert name !in before.entries by {
          forall j | 0 <= j < |frontNames| ensures frontNames[j] != name {
            assert names[j] != names[|names| - 1];
          }
        }
        PutNewColumn(before, name, Stored(obj, f, converters, foreign));
      }
    }
  }

  /** Putting a new column appends its value. */
  lemma PutNewColumn(m: InsertSql.ColumnValues, column: string, v: Value)
    requires m.Valid() && column !in m.entries
    ensures m.Put(column, v).Values() == m.Values() + [v]
  {
    var r := m.Put(column, v);
    assert forall i :: 0 <= i < |m.keys| ==> m.keys[i] != column;
    assert forall i :: 0 <= i < |m.keys| ==> r.Values()[i] == m.Values()[i];
  }

  /** The conflict keys: the @PrimaryKey @Column fields' column names in
      field order. */
  function KeyColumns(fields: seq<Field>): seq<string>
    decreases |fields|
  {
    if |fields| == 0 then []
    else
      var f := fields[|fields| - 1];
      KeyColumns(fields[..|fields| - 1]) + (if f.column.Some? && f.primaryKey then [ColumnName(f).value] else [])
  }

  /** A name is a conflict key exactly when it is the column name of a
      @PrimaryKey @Column field. */
  lemma {:induction false} KeyColumnsMembers(fields: seq<Field>, k: string)
    ensures k in KeyColumns(fields)
        <==> exists i :: 0 <= i < |fields| && fields[i].column.Some? && fields[i].primaryKey && ColumnName(fields[i]) == Some(k)
    decreases |fields|
  {
    if |fields| > 0 {
      var front := fields[..|fields| - 1];
      assert forall i :: 0 <= i < |front| ==> front[i] == fields[i];
      KeyColumnsMembers(front, k);
      if k in KeyColumns(front) {
        var i :| 0 <= i < |front| && front[i].column.Some? && front[i].primaryKey && ColumnName(front[i]) == Some(k);
        assert fields[i] == front[i];
      }
    }
  }

  /** Only an upsert on SQLite or PostgreSQL collects conflict keys. */
  predicate NeedsConflictKeys(upsert: bool, d: DatabaseType)
  {
    upsert && (d == SQLITE || d == POSTGRESQL)
  }

  function NoKeyMessage(className: string): string
  {
    "Upsert requires at least one @PrimaryKey or @Column(primaryKey=true) in " + className
  }

  /** Where insertObject ends: the statement built and executed, or, for an
      upsert that collected conflict keys, the conflictKeys(keys) call that
      InsertSQL does not define. */
  datatype InsertOutcome =
    | Executed(statement: PreparedStatement)
    | ConflictKeysCall(table: string, values: InsertSql.ColumnValues, keys: seq<string>)

  /** insertObject(clazz, object, upsert) against the converters before it. */
  function InsertObjectSpec(converters: map<HostType, Converter>, cls: ClassDescriptor, obj: Instance,
                            upsert: bool, d: DatabaseType, foreign: ForeignCode)
    : (map<HostType, Converter>, Result<InsertOutcome>)
  {
    match TableName(cls)
    case Err(e) => (converters, Err(e))
    case Ok(t) =>
      var s := ScanFields(converters, cls.declaredFields);
      if s.outcome.Err? then (s.converters, Err(s.outcome.error))
      else (s.converters, InsertStatement(t, s.outcome.value, obj, s.converters, upsert, d, cls.name, foreign))
  }

  /** What insertObject does once the fields are known. */
  function InsertStatement(t: string, fields: seq<Field>, obj: Instance, converters: map<HostType, Converter>,
                           upsert: bool, d: DatabaseType, className: string, foreign: ForeignCode)
    : Result<InsertOutcome>
  {
    var _ :- ValidateIdentifier(t);
    var values :- FillValues(fields, obj, converters, foreign);
    InsertValues(t, values, KeyColumns(fields), upsert, d, className)
  }

  /** What insertObject does once the values are set: ask for the conflict
      keys, or build the statement. */
  function InsertValues(t: string, values: InsertSql.ColumnValues, keys: seq<string>, upsert: bool,
                        d: DatabaseType, className: string): Result<InsertOutcome>
    requires values.Valid()
  {
    if NeedsConflictKeys(upsert, d) then
      if |keys| == 0 then Err(IllegalState(NoKeyMessage(className)))
      else Ok(ConflictKeysCall(t, values, keys))
    else
      var p :- BuildResult(InsertSql.InsertText(upsert, Some(t), values, None, d), InsertSql.InsertParameters(values, None));
      Ok(Executed(p))
  }

  /** Outside an SQLite or PostgreSQL upsert, an insert whose table and
      columns are identifiers always builds: its text is the insert of the
      stored values and they are bound in field order. */
  lemma InsertObjectBuilds(t: string, fields: seq<Field>, obj: Instance, converters: map<HostType, Converter>,
                           upsert: bool, d: DatabaseType, className: string, foreign: ForeignCode)
    requires IsIdentifier(t) && !NeedsConflictKeys(upsert, d)
    requires FillValues(fields, obj, converters, foreign).Ok?
    ensures InsertStatement(t, fields, obj, converters, upsert, d, className, foreign)
        == Ok(Executed(PreparedStatement(
              InsertSql.InsertText(upsert, Some(t), FillValues(fields, obj, converters, foreign).value, None, d),
              Bound(FillValues(fields, obj, converters, foreign).value.Values(),
                    |FillValues(fields, obj, converters, foreign).value.keys|))))
  {
    var values := FillValues(fields, obj, converters, foreign).value;
    InsertSql.InsertBuildSucceedsIff(upsert, Some(t), values, None, d);
    assert InsertSql.InsertParameters(values, None) == values.Values();
  }

  /** There are no conflict keys exactly when no @Column field is a
      @PrimaryKey. */
  lemma {:induction false} KeyColumnsEmpty(fields: seq<Field>)
    ensures |KeyColumns(fields)| == 0 <==> NoKeyField(fields)
    decreases |fields|
  {
    if |fields| > 0 {
      var front := fields[..|fields| - 1];
      KeyColumnsEmpty(front);
      assert NoKeyField(fields) <==>
        NoKeyField(front) && !(fields[|fields| - 1].column.Some? && fields[|fields| - 1].primaryKey) by {
        assert forall i :: 0 <= i < |front| ==> front[i] == fields[i];
      }
    }
  }

  predicate NoKeyField(fields: seq<Field>)
  {
    forall i :: 0 <= i < |fields| && fields[i].column.Some? ==> !fields[i].primaryKey
  }

  /** An SQLite or PostgreSQL upsert needs a primary-key column: without
      one insertObject throws; with one it asks for exactly those keys. */
  lemma UpsertConflictKeys(t: string, fields: seq<Field>, obj: Instance, converters: map<HostType, Converter>,
                           d: DatabaseType, className: string, foreign: ForeignCode)
    requires IsIdentifier(t) && (d == SQLITE || d == POSTGRESQL)
    requires FillValues(fields, obj, converters, foreign).Ok?
    ensures NoKeyField(fields) ==>
      InsertStatement(t, fields, obj, converters, true, d, className, foreign) == Err(IllegalState(NoKeyMessage(className)))
    ensures !NoKeyField(fields) ==>
      InsertStatement(t, fields, obj, converters, true, d, className, foreign)
        == Ok(ConflictKeysCall(t, FillValues(fields, obj, converters, foreign).value, KeyColumns(fields)))
  {
    KeyColumnsEmpty(fields);
    var values := FillValues(fields, obj, converters, foreign).value;
    assert InsertStatement(t, fields, obj, converters, true, d, className, foreign)
        == InsertValues(t, values, KeyColumns(fields), true, d, className);
  }

  // ---------------------------------------------------------------------
  // updateObject

  /** The calls made on an UpdateSQL: table(t), set(column, value) in
      order, where(condition). */
  datatype UpdateCall = UpdateCall(table: string, sets: seq<(string, Value)>, where: Condition)

  /** The set calls: every @Column field that is not a @PrimaryKey. */
  function SetEntries(fields: seq<Field>, obj: Instance, converters: map<HostType, Converter>, foreign: ForeignCode)
    : seq<(string, Value)>
    decreases |fields|
  {
    if |fields| == 0 then []
    else
      var f := fields[|fields| - 1];
      SetEntries(fields[..|fields| - 1], obj, converters, foreign)
      + (if f.column.Some? && !f.primaryKey then [(ColumnName(f).value, Stored(obj, f, converters, foreign))] else [])
  }

  /** updateObject(clazz, object, condition) against the converters before it. */
  function UpdateObjectSpec(converters: map<HostType, Converter>, cls: ClassDescriptor, obj: Instance,
                            condition: Condition, foreign: ForeignCode)
    : (map<HostType, Converter>, Result<UpdateCall>)
  {
    match TableName(cls)
    case Err(e) => (converters, Err(e))
    case Ok(t) =>
      var s := ScanFields(converters, cls.declaredFields);
      if s.outcome.Err? then (s.converters, Err(s.outcome.error))
      else (s.converters, Ok(UpdateCall(t, SetEntries(s.outcome.value, obj, s.converters, foreign), condition)))
  }

  /** e is the set call of field f: f is a @Column field that is not a
      @PrimaryKey, and e pairs its column name with its stored value. */
  predicate IsSetEntry(f: Field, e: (string, Value), obj: Instance, converters: map<HostType, Converter>,
                       foreign: ForeignCode)
  {
    f.column.Some? && !f.primaryKey && e == (ColumnName(f).value, Stored(obj, f, converters, foreign))
  }

  /** A column is set exactly when it belongs to a @Column field that is
      not a @PrimaryKey, with that field's stored value: the keys are
      never overwritten. */
  lemma {:induction false} SetEntriesMembers(fields: seq<Field>, obj: Instance, converters: map<HostType, Converter>,
                                             foreign: ForeignCode, e: (string, Value))
    ensures e in SetEntries(fields, obj, converters, foreign)
        <==> exists i :: 0 <= i < |fields| && IsSetEntry(fields[i], e, obj, converters, foreign)
    decreases |fields|
  {
    if |fields| > 0 {
      var n := |fields| - 1;
      var front := fields[..n];
      SetEntriesMembers(front, obj, converters, foreign, e);
      if e in SetEntries(fields, obj, converters, foreign) {
        if e in SetEntries(front, obj, converters, foreign) {
          var i :| 0 <= i < |front| && IsSetEntry(front[i], e, obj, converters, foreign);
          assert fields[i] == front[i];
        } else {
          assert IsSetEntry(fields[n], e, obj, converters, foreign);
        }
      } else {
        forall i | 0 <= i < |fields|
          ensures !IsSetEntry(fields[i], e, obj, converters, foreign)
        {
          if i < n {
            assert fields[i] == front[i];
          }
        }
      }
    }
  }

  // ---------------------------------------------------------------------
  // deleteObject

  /** deleteObject(clazz, condition): delete().from(table).where(condition), built. */
  function DeleteObjectSpec(cls: ClassDescriptor, condition: Condition): Result<PreparedStatement>
  {
    var t :- TableName(cls);
    var _ :- ValidateIdentifier(t);
    BuildResult(DeleteSql.DeleteText(Some(t), Some(condition)), WhereParameters(Some(condition)))
  }

  /** A delete is built exactly when the table name is an identifier and
      the condition's placeholders match its parameters. */
  lemma DeleteObjectBuilds(cls: ClassDescriptor, condition: Condition)
    requires TableName(cls).Ok?
    ensures IsIdentifier(cls.table.value) && Balanced(condition) <==> DeleteObjectSpec(cls, condition).Ok?
    ensures !IsIdentifier(cls.table.value) ==> DeleteObjectSpec(cls, condition) == Err(IllegalIdentifier(cls.table.value))
    ensures DeleteObjectSpec(cls, condition).Ok? ==>
      DeleteObjectSpec(cls, condition).value.sql == "DELETE FROM " + cls.table.value + " WHERE " + Conditions.GetSql(condition)
  {
    if IsIdentifier(cls.table.value) {
      DeleteSql.DeleteBuildSucceedsIff(Some(cls.table.value), Some(condition));
      DeleteSql.DeleteShape(Some(cls.table.value), Some(condition));
    }
  }

  /** Every object operation checks @Table before anything else: on a
      failed check no SQL is assembled and no converter is registered. */
  lemma TableCheckFirst(converters: map<HostType, Converter>, cls: ClassDescriptor, obj: Instance, upsert: bool,
                        d: DatabaseType, condition: Condition, foreign: ForeignCode)
    requires TableName(cls).Err?
    ensures SelectOneQuery(cls, condition) == Err(TableName(cls).error)
    ensures SelectMultiQuery(cls, Some(condition)) == Err(TableName(cls).error)
    ensures CreateTableSpec(converters, cls) == (converters, Err(TableName(cls).error))
    ensures InsertObjectSpec(converters, cls, obj, upsert, d, foreign) == (converters, Err(TableName(cls).error))
    ensures UpdateObjectSpec(converters, cls, obj, condition, foreign) == (converters, Err(TableName(cls).error))
    ensures DeleteObjectSpec(cls, condition) == Err(TableName(cls).error)
  {
  }

  // ---------------------------------------------------------------------
  // The connection

  /** An AbstractSQLConnection of one dialect. The serializer's static
      state is the ObjectSerializer passed to each operation; the query
      itself is not modelled, so its rows are passed in. */
  class SqlConnection {
    const dialect: DatabaseType

    constructor(dialect: DatabaseType)
      ensures this.dialect == dialect
    {
      this.dialect := dialect;
    }

    /** selectOne: the query, then serializeOne on the row the returned
        cursor stands on. */
    method SelectOne(ser: ObjectSerializer, cls: ClassDescriptor, condition: Condition, current: Row,
                     foreign: ForeignCode)
      returns (query: Result<SelectCall>, r: Result<Instance>)
      modifies ser
      ensures query == SelectOneQuery(cls, condition)
      ensures query.Err? ==> r == Err(query.error) && ser.State() == old(ser.State())
      ensures query.Ok? ==> (ser.State(), r) == One(old(ser.State()), cls, current, foreign)
    {
      query := SelectOneQuery(cls, condition);
      if query.Err? {
        return query, Err(query.error);
      }
      r := ser.SerializeOne(cls, current, foreign);
    }

    /** selectMulti: the query, then serializeMulti over its rows. */
    method SelectMulti(ser: ObjectSerializer, cls: ClassDescriptor, condition: Option<Condition>, rows: seq<Row>,
                       foreign: ForeignCode)
      returns (query: Result<SelectCall>, r: Result<seq<Instance>>)
      modifies ser
      ensures query == SelectMultiQuery(cls, condition)
      ensures query.Err? ==> r == Err(query.error) && ser.State() == old(ser.State())
      ensures query.Ok? ==> (ser.State(), r) == Multi(old(ser.State()), cls, rows, foreign)
    {
      query := SelectMultiQuery(cls, condition);
      if query.Err? {
        return query, Err(query.error);
      }
      r := ser.SerializeMulti(cls, rows, foreign);
    }

    /** createTableByClass(clazz). */
    method CreateTableByClass(ser: ObjectSerializer, cls: ClassDescriptor) returns (r: Result<CreateTableCall>)
      modifies ser
      ensures (ser.converters, r) == CreateTableSpec(old(ser.converters), cls)
      ensures ser.fieldCache == old(ser.fieldCache)
    {
      var t := TableName(cls);
      if t.Err? {
        return Err(t.error);
      }
      var fields := ser.GetAllFields(cls);
      if fields.Err? {
        return Err(fields.error);
      }
      var fs := fields.value;
      var calls: seq<ColumnCall> := [];
      for i := 0 to |fs|
        invariant TableCalls(fs[..i], ser.converters) == Ok(calls)
        invariant ser.converters == ScanFields(old(ser.converters), cls.declaredFields).converters
        invariant ser.fieldCache == old(ser.fieldCache)
      {
        var f := fs[i];
        assert fs[..i + 1][..i] == fs[..i];
        if f.column.Some? {
          var sqlType := ser.SqlType(f.fieldType);
          if sqlType.Err? {
            TableCallsErrorPersists(fs, i + 1, ser.converters);
            return Err(sqlType.error);
          }
          calls := calls + FieldCalls(f, sqlType.value);
        }
      }
      assert fs[..|fs|] == fs;
      r := Ok(CreateTableCall(t.value, true, calls));
    }

    /** insertObject(clazz, object, upsert). */
    method InsertObject(ser: ObjectSerializer, cls: ClassDescriptor, obj: Instance, upsert: bool, foreign: ForeignCode)
      returns (r: Result<InsertOutcome>)
      modifies ser
      ensures (ser.converters, r) == InsertObjectSpec(old(ser.converters), cls, obj, upsert, dialect, foreign)
      ensures ser.fieldCache == old(ser.fieldCache)
    {
      var t := TableName(cls);
      if t.Err? {
        return Err(t.error);
      }
      var fields := ser.GetAllFields(cls);
      if fields.Err? {
        return Err(fields.error);
      }
      r := InsertFields(t.value, fields.value, obj, ser.converters, upsert, cls.name, foreign);
    }

    /** The rest of insertObject once the table is known and the fields are
        scanned: the InsertSQL is filled, then built or handed its conflict
        keys. */
    method InsertFields(t: string, fs: seq<Field>, obj: Instance, converters: map<HostType, Converter>,
                        upsert: bool, className: string, foreign: ForeignCode)
      returns (r: Result<InsertOutcome>)
      ensures r == InsertStatement(t, fs, obj, converters, upsert, dialect, className, foreign)
    {
      var sql: InsertSql.InsertSQL;
      if upsert {
        sql := InsertSql.NewUpsert();
      } else {
        sql := InsertSql.NewInsert();
      }
      var into := sql.Into(t);
      if into.Err? {
        return Err(into.error);
      }
      var needsKeys := NeedsConflictKeys(upsert, dialect);
      var added, keys := AddColumnValues(sql, fs, obj, converters, needsKeys, foreign);
      if added.Err? {
        return Err(added.error);
      }
      assert FillValues(fs, obj, converters, foreign) == Ok(sql.values);
      assert InsertStatement(t, fs, obj, converters, upsert, dialect, className, foreign)
          == InsertValues(t, sql.values, KeyColumns(fs), upsert, dialect, className);
      if needsKeys {
        if |keys| == 0 {
          return Err(IllegalState(NoKeyMessage(className)));
        }
        return Ok(ConflictKeysCall(t, sql.values, keys));
      }
      var statement := sql.Build(dialect);
      if statement.Err? {
        return Err(statement.error);
      }
      r := Ok(Executed(statement.value));
    }

    /** updateObject(clazz, object, condition). */
    method UpdateObject(ser: ObjectSerializer, cls: ClassDescriptor, obj: Instance, condition: Condition,
                        foreign: ForeignCode)
      returns (r: Result<UpdateCall>)
      modifies ser
      ensures (ser.converters, r) == UpdateObjectSpec(old(ser.converters), cls, obj, condition, foreign)
      ensures ser.fieldCache == old(ser.fieldCache)
    {
      var t := TableName(cls);
      if t.Err? {
        return Err(t.error);
      }
      var fields := ser.GetAllFields(cls);
      if fields.Err? {
        return Err(fields.error);
      }
      var fs := fields.value;
      var sets: seq<(string, Value)> := [];
      for i := 0 to |fs|
        invariant sets == SetEntries(fs[..i], obj, ser.converters, foreign)
      {
        var f := fs[i];
        assert fs[..i + 1][..i] == fs[..i];
        if f.column.Some? && !f.primaryKey {
          sets := sets + [(ColumnName(f).value, ser.ConvertBack(FieldValue(obj, f), foreign))];
        }
      }
      assert fs[..|fs|] == fs;
      r := Ok(UpdateCall(t.value, sets, condition));
    }

    /** deleteObject(clazz, condition). */
    method DeleteObject(cls: ClassDescriptor, condition: Condition) returns (r: Result<PreparedStatement>)
      ensures r == DeleteObjectSpec(cls, condition)
    {
      var t := TableName(cls);
      if t.Err? {
        return Err(t.error);
      }
      var sql := DeleteSql.NewDelete();
      var from := sql.From(t.value);
      if from.Err? {
        return Err(from.error);
      }
      sql.Where(Some(condition));
      r := sql.Build(dialect);
    }
  }

  /** insertObject's loop: value(columnName, convertBack(value)) for each
      @Column field, collecting the conflict keys when they are needed. */
  method AddColumnValues(sql: InsertSql.InsertSQL, fields: seq<Field>, obj: Instance,
                         converters: map<HostType, Converter>, needsKeys: bool, foreign: ForeignCode)
    returns (r: Result<()>, keys: seq<string>)
    requires sql.Valid() && sql.values == InsertSql.NoValues
    modifies sql
    ensures sql.Valid()
    ensures sql.table == old(sql.table) && sql.whereCondition == old(sql.whereCondition)
    ensures sql.parameters == old(sql.parameters)
    ensures r.Ok? <==> FillValues(fields, obj, converters, foreign).Ok?
    ensures r.Err? ==> r.error == FillValues(fields, obj, converters, foreign).error
    ensures r.Ok? ==> sql.values == FillValues(fields, obj, converters, foreign).value
    ensures r.Ok? ==> keys == if needsKeys then KeyColumns(fields) else []
  {
    keys := [];
    for i := 0 to |fields|
      invariant sql.Valid()
      invariant sql.table == old(sql.table) && sql.whereCondition == old(sql.whereCondition)
      invariant sql.parameters == old(sql.parameters)
      invariant FillValues(fields[..i], obj, converters, foreign) == Ok(sql.values)
      invariant keys == if needsKeys then KeyColumns(fields[..i]) else []
    {
      var f := fields[i];
      assert fields[..i + 1][..i] == fields[..i];
      FillValuesStep(fields, i, obj, converters, foreign);
      KeyColumnsStep(fields, i);
      if f.column.Some? {
        var columnName := ColumnName(f).value;
        var added := sql.Value(columnName, Stored(obj, f, converters, foreign));
        if added.Err? {
          FillValuesErrorPersists(fields, i + 1, obj, converters, foreign);
          return Err(added.error), keys;
        }
        if needsKeys && f.primaryKey {
          keys := keys + [columnName];
        }
      }
    }
    assert fields[..|fields|] == fields;
    r := Ok(());
  }

  /** One more field for FillValues. */
  lemma FillValuesStep(fields: seq<Field>, i: nat, obj: Instance, converters: map<HostType, Converter>,
                       foreign: ForeignCode)
    requires i < |fields| && FillValues(fields[..i], obj, converters, foreign).Ok?
    ensures fields[i].column.None? ==>
      FillValues(fields[..i + 1], obj, converters, foreign) == FillValues(fields[..i], obj, converters, foreign)
    ensures fields[i].column.Some? ==>
      FillValues(fields[..i + 1], obj, converters, foreign)
        == if IsIdentifier(ColumnName(fields[i]).value)
           then Ok(FillValues(fields[..i], obj, converters, foreign).value.Put(
                     ColumnName(fields[i]).value, Stored(obj, fields[i], converters, foreign)))
           else Err(IllegalIdentifier(ColumnName(fields[i]).value))
  {
    assert fields[..i + 1][..i] == fields[..i];
  }

  /** One more field for KeyColumns. */
  lemma KeyColumnsStep(fields: seq<Field>, i: nat)
    requires i < |fields|
    ensures KeyColumns(fields[..i + 1])
      == KeyColumns(fields[..i]) + (if fields[i].column.Some? && fields[i].primaryKey then [ColumnName(fields[i]).value] else [])
  {
    assert fields[..i + 1][..i] == fields[..i];
  }

  lemma {:induction false} TableCallsErrorPersists(fields: seq<Field>, k: nat, converters: map<HostType, Converter>)
    requires k <= |fields|
    requires TableCalls(fields[..k], converters).Err?
    ensures TableCalls(fields, converters) == TableCalls(fields[..k], converters)
    decreases |fields| - k
  {
    if k < |fields| {
      assert fields[..k + 1][..k] == fields[..k];
      TableCallsErrorPersists(fields, k + 1, converters);
    } else {
      assert fields[..k] == fields;
    }
  }

  lemma {:induction false} FillValuesErrorPersists(fields: seq<Field>, k: nat, obj: Instance,
                                                   converters: map<HostType, Converter>, foreign: ForeignCode)
    requires k <= |fields|
    requires FillValues(fields[..k], obj, converters, foreign).Err?
    ensures FillValues(fields, obj, converters, foreign) == FillValues(fields[..k], obj, converters, foreign)
    decreases |fields| - k
  {
    if k < |fields| {
      assert fields[..k + 1][..k] == fields[..k];
      FillValuesErrorPersists(fields, k + 1, obj, converters, foreign);
    } else {
      assert fields[..k] == fields;
    }
  }
}
