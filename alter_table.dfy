/** AlterTableSQL: a queue of alter operations, each rendered as its own
    `ALTER TABLE t ...` statement with the dialect deciding the clause or
    rejecting the operation. */
module AlterTableSql {
  import opened Text
  import opened Wrappers
  import opened Errors
  import opened Sql
  import opened DatabaseTypes

  datatype OperationType =
    | AddColumn | DropColumn | ModifyColumn | RenameColumn | RenameTable
    | AddPrimaryKey | DropPrimaryKey | AddForeignKey | DropForeignKey
    | AddUnique | DropUnique

  /** The AlterOperation record. extraInfo holds the position (add and
      modify), the new name (rename column, rename table), the column list
      (primary key, unique), the encoded reference (foreign key) or the
      constraint name (drops). */
  datatype AlterOperation = AlterOperation(
    kind: OperationType,
    columnName: Option<string>,
    dataType: Option<string>,
    notNull: bool,
    defaultValue: Option<string>,
    extraInfo: Option<string>)

  // ---------------------------------------------------------------------
  // What each adder appends, or the exception it throws first

  /** addColumn(columnName, dataType, notNull, defaultValue, position):
      only the column is validated; the position is stored as given. */
  function AddColumnCall(columnName: string, dataType: Option<string>, notNull: bool,
                         defaultValue: Option<string>, position: Option<string>): (r: Result<AlterOperation>)
    ensures r.Ok? <==> IsIdentifier(columnName)
    ensures r.Ok? ==> r.value.extraInfo == position && r.value.columnName == Some(columnName)
  {
    var _ :- ValidateIdentifier(columnName);
    Ok(AlterOperation(AddColumn, Some(columnName), dataType, notNull, defaultValue, position))
  }

  function DropColumnCall(columnName: string): (r: Result<AlterOperation>)
    ensures r.Ok? <==> IsIdentifier(columnName)
  {
    var _ :- ValidateIdentifier(columnName);
    Ok(AlterOperation(DropColumn, Some(columnName), None, false, None, None))
  }

  /** A position that names a column without `FIRST` or `AFTER `. */
  predicate IsBarePosition(position: string)
  {
    position != "FIRST" && !StartsWith(position, "AFTER ")
  }

  /** modifyColumn(columnName, newDataType, notNull, defaultValue, position):
      a bare column name as position is validated and becomes `AFTER name`. */
  function ModifyColumnCall(columnName: string, dataType: Option<string>, notNull: bool,
                            defaultValue: Option<string>, position: Option<string>): (r: Result<AlterOperation>)
    ensures r.Ok? <==>
      IsIdentifier(columnName) && (position.Some? && IsBarePosition(position.value) ==> IsIdentifier(position.value))
    ensures r.Err? && !IsIdentifier(columnName) ==> r.error == IllegalIdentifier(columnName)
    ensures r.Err? && IsIdentifier(columnName) ==> position.Some? && r.error == IllegalIdentifier(position.value)
    ensures r.Ok? && position.Some? && IsBarePosition(position.value) ==>
      r.value.extraInfo == Some("AFTER " + position.value)
    ensures r.Ok? && !(position.Some? && IsBarePosition(position.value)) ==> r.value.extraInfo == position
  {
    var _ :- ValidateIdentifier(columnName);
    var extra :- if position.Some? && IsBarePosition(position.value) then
        var _ :- ValidateIdentifier(position.value);
        Ok(Some("AFTER " + position.value))
      else Ok(position);
    Ok(AlterOperation(ModifyColumn, Some(columnName), dataType, notNull, defaultValue, extra))
  }

  /** renameColumn(oldColumnName, newColumnName, dataType). */
  function RenameColumnCall(oldName: string, newName: string, dataType: Option<string>): (r: Result<AlterOperation>)
    ensures r.Ok? <==> IsIdentifier(oldName) && IsIdentifier(newName)
    ensures r.Err? ==> r.error == IllegalIdentifier(if IsIdentifier(oldName) then newName else oldName)
  {
    var _ :- ValidateIdentifier(oldName);
    var _ :- ValidateIdentifier(newName);
    Ok(AlterOperation(RenameColumn, Some(oldName), dataType, false, None, Some(newName)))
  }

  /** addPrimaryKey(columnNames...) and addUnique(columnNames...): the names
      joined by ", ". */
  function ColumnListCall(kind: OperationType, names: seq<string>): (r: Result<AlterOperation>)
    requires kind == AddPrimaryKey || kind == AddUnique
    ensures r.Ok? <==> forall i :: 0 <= i < |names| ==> IsIdentifier(names[i])
    ensures r.Ok? ==> r.value.extraInfo == Some(Join(", ", names))
  {
    var _ :- ValidateAll(names);
    Ok(AlterOperation(kind, None, None, false, None, Some(Join(", ", names))))
  }

  /** The extraInfo that addForeignKey stores: `name:ref(col)` or `ref(col)`. */
  function EncodeReference(constraintName: Option<string>, referenceTable: string, referenceColumn: string): string
  {
    var reference := referenceTable + "(" + referenceColumn + ")";
    if constraintName.Some? then constraintName.value + ":" + reference else reference
  }

  /** addForeignKey(columnName, referenceTable, referenceColumn,
      constraintName): the four names are validated in that order. */
  function ForeignKeyCall(columnName: string, referenceTable: string, referenceColumn: string,
                          constraintName: Option<string>): (r: Result<AlterOperation>)
    ensures r.Ok? <==>
      IsIdentifier(columnName) && IsIdentifier(referenceTable) && IsIdentifier(referenceColumn)
      && (constraintName.Some? ==> IsIdentifier(constraintName.value))
    ensures r.Err? ==> r.error == IllegalIdentifier(
        if !IsIdentifier(columnName) then columnName
        else if !IsIdentifier(referenceTable) then referenceTable
        else if !IsIdentifier(referenceColumn) then referenceColumn
        else constraintName.value)
    ensures r.Ok? ==> r.value.extraInfo == Some(EncodeReference(constraintName, referenceTable, referenceColumn))
  {
    var _ :- ValidateIdentifier(columnName);
    var _ :- ValidateIdentifier(referenceTable);
    var _ :- ValidateIdentifier(referenceColumn);
    var _ :- if constraintName.Some? then ValidateIdentifier(constraintName.value) else Ok(());
    Ok(AlterOperation(AddForeignKey, Some(columnName), None, false, None,
                      Some(EncodeReference(constraintName, referenceTable, referenceColumn))))
  }

  /** dropForeignKey(name), dropUnique(name) and renameTable(name): one
      validated name kept in extraInfo. */
  function NamedCall(kind: OperationType, name: string): (r: Result<AlterOperation>)
    requires kind == DropForeignKey || kind == DropUnique || kind == RenameTable
    ensures r.Ok? <==> IsIdentifier(name)
    ensures r.Ok? ==> r.value.extraInfo == Some(name)
  {
    var _ :- ValidateIdentifier(name);
    Ok(AlterOperation(kind, None, None, false, None, Some(name)))
  }

  const DropPrimaryKeyOperation := AlterOperation(DropPrimaryKey, None, None, false, None, None)

  // ---------------------------------------------------------------------
  // buildOperation

  /** The position forms that PostgreSQL and SQLite refuse. */
  predicate IsPositioning(extraInfo: Option<string>)
  {
    extraInfo.Some? && (extraInfo.value == "FIRST" || StartsWith(extraInfo.value, "AFTER "))
  }

  /** The MySQL / MariaDB position suffix: ` FIRST`, ` AFTER c` once the
      column after `AFTER ` is validated, and nothing for any other text. */
  function PositionClause(position: string): Result<string>
  {
    if position == "FIRST" then Ok(" FIRST")
    else if StartsWith(position, "AFTER ") then
      var afterColumn := position[6..];
      var _ :- ValidateIdentifier(afterColumn);
      Ok(" AFTER " + afterColumn)
    else Ok("")
  }

  /** `FIRST` is kept, `AFTER c` is kept once c is an identifier and
      refused naming c otherwise, and any other text renders nothing. */
  lemma PositionForms(position: string)
    ensures position == "FIRST" ==> PositionClause(position) == Ok(" FIRST")
    ensures position != "FIRST" && StartsWith(position, "AFTER ") ==>
      PositionClause(position) == (if IsIdentifier(position[6..]) then Ok(" AFTER " + position[6..])
                                   else Err(IllegalIdentifier(position[6..])))
    ensures IsBarePosition(position) ==> PositionClause(position) == Ok("")
  {
  }

  function NotNullClause(notNull: bool): string
  {
    if notNull then " NOT NULL" else ""
  }

  /** ` DEFAULT v` for a present, non-empty default. */
  function DefaultClause(defaultValue: Option<string>): string
  {
    if defaultValue.Some? && |defaultValue.value| > 0 then " DEFAULT " + defaultValue.value else ""
  }

  function OptionalClause(present: bool, clause: string): seq<string>
  {
    if present then [clause] else []
  }

  /** The alterClauses list of the PostgreSQL MODIFY branch. */
  function PostgresClauses(op: AlterOperation): seq<string>
  {
    var column := "ALTER COLUMN " + AppendText(op.columnName);
    OptionalClause(op.dataType.Some?, column + " TYPE " + AppendText(op.dataType))
    + OptionalClause(op.notNull, column + " SET NOT NULL")
    + OptionalClause(op.defaultValue.Some?,
        if op.defaultValue.Some? && |op.defaultValue.value| == 0 then column + " DROP DEFAULT"
        else column + " SET DEFAULT " + AppendText(op.defaultValue))
  }

  const SqliteNoDropColumn := "SQLite does not support DROP COLUMN"
  const SqliteNoModify := "SQLite does not support MODIFY COLUMN"
  const SqliteNoDropPrimaryKey := "SQLite does not support DROP PRIMARY KEY"
  const SqliteNoDropForeignKey := "SQLite does not support DROP FOREIGN KEY"
  const SqliteNoDropUnique := "SQLite does not support DROP UNIQUE"
  const PostgresNoPositioning := "PostgreSQL does not support column positioning (FIRST/AFTER)"
  const NoPositioningSuffix := " does not support column positioning (FIRST/AFTER)"
  const AlterNeedsTable := "Table name must be specified"
  const AlterNeedsOperation := "At least one alter operation must be specified"
  const SqliteOneOperation := "SQLite only supports one operation per ALTER TABLE statement"
  const ModifyNeedsChange := "MODIFY COLUMN requires at least one modification (dataType, notNull, or defaultValue)"
  const RenameNeedsType := "MySQL/MariaDB RENAME COLUMN requires data type. Use renameColumn(oldName, newName, dataType) instead."

  /** buildOperation(op, type): the clause after `ALTER TABLE t `, or the
      exception the dialect raises for it. */
  function OperationSql(op: AlterOperation, d: DatabaseType): Result<string>
  {
    match op.kind
    case AddColumn => AddColumnSql(op, d)
    case DropColumn =>
      if d == SQLITE then Err(UnsupportedOperation(SqliteNoDropColumn))
      else Ok("DROP COLUMN " + AppendText(op.columnName))
    case ModifyColumn => ModifyColumnSql(op, d)
    case RenameColumn => RenameColumnSql(op, d)
    case AddPrimaryKey => Ok("ADD PRIMARY KEY (" + AppendText(op.extraInfo) + ")")
    case DropPrimaryKey =>
      if d == SQLITE then Err(UnsupportedOperation(SqliteNoDropPrimaryKey))
      else Ok("DROP PRIMARY KEY")
    case RenameTable => Ok("RENAME TO " + AppendText(op.extraInfo))
    case AddForeignKey => Ok(ForeignKeySql(op))
    case DropForeignKey =>
      if d == SQLITE then Err(UnsupportedOperation(SqliteNoDropForeignKey))
      else if d == POSTGRESQL then Ok("DROP CONSTRAINT " + AppendText(op.extraInfo))
      else Ok("DROP FOREIGN KEY " + AppendText(op.extraInfo))
    case AddUnique => Ok("ADD UNIQUE (" + AppendText(op.extraInfo) + ")")
    case DropUnique =>
      if d == SQLITE then Err(UnsupportedOperation(SqliteNoDropUnique))
      else if d == POSTGRESQL then Ok("DROP CONSTRAINT " + AppendText(op.extraInfo))
      else Ok("DROP INDEX " + AppendText(op.extraInfo))
  }

  /** The ADD_COLUMN branch: positioning is refused on PostgreSQL and
      SQLite and rendered only on MySQL and MariaDB. */
  function AddColumnSql(op: AlterOperation, d: DatabaseType): Result<string>
  {
    if (d == POSTGRESQL || d == SQLITE) && IsPositioning(op.extraInfo) then
      Err(UnsupportedOperation(Name(d) + NoPositioningSuffix))
    else
      var position :- if op.extraInfo.Some? && (d == MYSQL || d == MARIADB)
                       then PositionClause(op.extraInfo.value) else Ok("");
      Ok("ADD COLUMN " + AppendText(op.columnName) + " " + AppendText(op.dataType)
         + NotNullClause(op.notNull) + DefaultClause(op.defaultValue) + position)
  }

  /** The MODIFY_COLUMN branch. */
  function ModifyColumnSql(op: AlterOperation, d: DatabaseType): Result<string>
  {
    if d == SQLITE then Err(UnsupportedOperation(SqliteNoModify))
    else if d == POSTGRESQL then
      if IsPositioning(op.extraInfo) then
        Err(UnsupportedOperation(PostgresNoPositioning))
      else if |PostgresClauses(op)| == 0 then Err(IllegalState(ModifyNeedsChange))
      else Ok(Join(", ", PostgresClauses(op)))
    else
      var position :- if op.extraInfo.Some? then PositionClause(op.extraInfo.value) else Ok("");
      Ok("MODIFY COLUMN " + AppendText(op.columnName)
         + (if op.dataType.Some? then " " + op.dataType.value else "")
         + NotNullClause(op.notNull) + DefaultClause(op.defaultValue) + position)
  }

  /** The RENAME_COLUMN branch. */
  function RenameColumnSql(op: AlterOperation, d: DatabaseType): Result<string>
  {
    if d == SQLITE || d == POSTGRESQL then
      Ok("RENAME COLUMN " + AppendText(op.columnName) + " TO " + AppendText(op.extraInfo))
    else if op.dataType.Some? then
      Ok("CHANGE COLUMN " + AppendText(op.columnName) + " " + AppendText(op.extraInfo) + " " + op.dataType.value)
    else Err(IllegalState(RenameNeedsType))
  }

  /** The ADD_FOREIGN_KEY branch, on every dialect alike. */
  function ForeignKeySql(op: AlterOperation): string
  {
    var (constraintName, reference) := DecodeReference(op.extraInfo);
    (if constraintName.Some? then "ADD CONSTRAINT " + constraintName.value + " " else "")
    + "FOREIGN KEY (" + AppendText(op.columnName) + ") REFERENCES " + AppendText(reference)
  }

  /** The split of a foreign key's extraInfo at its first ':' into the
      constraint name and the reference. */
  function DecodeReference(extraInfo: Option<string>): (r: (Option<string>, Option<string>))
    ensures extraInfo.None? ==> r == (None, None)
    ensures extraInfo.Some? && !Contains(extraInfo.value, ':') ==> r == (None, extraInfo)
  {
    if extraInfo.Some? && Contains(extraInfo.value, ':') then
      var colonIndex := IndexOf(extraInfo.value, ':', 0);
      (Some(extraInfo.value[..colonIndex]), Some(extraInfo.value[colonIndex + 1..]))
    else (None, extraInfo)
  }

  // ---------------------------------------------------------------------
  // getSql

  function Statement(table: string, clause: string): string
  {
    "ALTER TABLE " + table + " " + clause
  }

  /** buildOperation applied to each queued operation, in queue order. */
  function Clauses(ops: seq<AlterOperation>, d: DatabaseType): seq<Result<string>>
  {
    seq(|ops|, i requires 0 <= i < |ops| => OperationSql(ops[i], d))
  }

  /** The statements for the rendered clauses in order; the first clause
      that failed decides the error. */
  function Statements(table: string, clauses: seq<Result<string>>): Result<seq<string>>
    decreases |clauses|
  {
    if |clauses| == 0 then Ok([])
    else
      var prefix :- Statements(table, clauses[..|clauses| - 1]);
      var clause :- clauses[|clauses| - 1];
      Ok(prefix + [Statement(table, clause)])
  }

  /** getSql(type): the table and operation checks come first, then the
      one-operation rule of SQLite, then the statements joined by "; ". */
  function AlterText(table: Option<string>, ops: seq<AlterOperation>, d: DatabaseType): Result<string>
  {
    if table.None? then Err(IllegalState(AlterNeedsTable))
    else if |ops| == 0 then Err(IllegalState(AlterNeedsOperation))
    else if d == SQLITE && |ops| > 1 then
      Err(UnsupportedOperation(SqliteOneOperation))
    else
      var statements :- Statements(table.value, Clauses(ops, d));
      Ok(Join("; ", statements))
  }

  /** The statements exist exactly when every clause rendered, one per
      clause in order; otherwise the error is that of the first clause
      that failed. */
  lemma {:induction false} StatementsInOrder(table: string, clauses: seq<Result<string>>)
    ensures Statements(table, clauses).Ok? <==> forall i :: 0 <= i < |clauses| ==> clauses[i].Ok?
    ensures Statements(table, clauses).Ok? ==>
      |Statements(table, clauses).value| == |clauses|
      && forall i :: 0 <= i < |clauses| ==> Statements(table, clauses).value[i] == Statement(table, clauses[i].value)
    ensures Statements(table, clauses).Err? ==>
      exists i :: 0 <= i < |clauses| && clauses[i] == Err(Statements(table, clauses).error)
        && (forall j :: 0 <= j < i ==> clauses[j].Ok?)
    decreases |clauses|
  {
    if |clauses| > 0 {
      var n := |clauses| - 1;
      var front := clauses[..n];
      StatementsInOrder(table, front);
      assert forall i :: 0 <= i < n ==> front[i] == clauses[i];
      var prefix := Statements(table, front);
      if prefix.Err? {
        var i :| 0 <= i < n && front[i] == Err(prefix.error) && (forall j :: 0 <= j < i ==> front[j].Ok?);
        assert clauses[i] == Err(Statements(table, clauses).error);
      }
    }
  }

  /** One more clause: its statement is appended, or the first error stays. */
  lemma StatementsStep(table: string, clauses: seq<Result<string>>, i: nat)
    requires i < |clauses|
    ensures Statements(table, clauses[..i]).Err? ==>
      Statements(table, clauses[..i + 1]) == Statements(table, clauses[..i])
    ensures Statements(table, clauses[..i]).Ok? && clauses[i].Err? ==>
      Statements(table, clauses[..i + 1]) == Err(clauses[i].error)
    ensures Statements(table, clauses[..i]).Ok? && clauses[i].Ok? ==>
      Statements(table, clauses[..i + 1])
        == Ok(Statements(table, clauses[..i]).value + [Statement(table, clauses[i].value)])
  {
    assert clauses[..i + 1][..i] == clauses[..i];
  }

  /** The statements of a longer list fail with the error of a failing
      prefix. */
  lemma {:induction false} StatementsPrefixError(table: string, clauses: seq<Result<string>>, k: nat)
    requires k <= |clauses|
    requires Statements(table, clauses[..k]).Err?
    ensures Statements(table, clauses) == Statements(table, clauses[..k])
    decreases |clauses| - k
  {
    if k < |clauses| {
      StatementsStep(table, clauses, k);
      StatementsPrefixError(table, clauses, k + 1);
    } else {
      assert clauses[..k] == clauses;
    }
  }

  // ---------------------------------------------------------------------
  // Properties

  /** getSql's precondition checks, in their order. */
  lemma AlterChecks(table: Option<string>, ops: seq<AlterOperation>, d: DatabaseType)
    ensures table.None? ==> AlterText(table, ops, d) == Err(IllegalState(AlterNeedsTable))
    ensures table.Some? && |ops| == 0 ==>
      AlterText(table, ops, d) == Err(IllegalState(AlterNeedsOperation))
    ensures table.Some? && d == SQLITE && |ops| > 1 ==>
      AlterText(table, ops, d) == Err(UnsupportedOperation(SqliteOneOperation))
  {
  }

  /** A rendered ALTER is the operations' statements in insertion order,
      each prefixed `ALTER TABLE t `, joined by "; ". */
  lemma AlterStatementsInOrder(table: string, ops: seq<AlterOperation>, d: DatabaseType)
    requires |ops| > 0 && !(d == SQLITE && |ops| > 1)
    ensures AlterText(Some(table), ops, d).Ok? <==> forall i :: 0 <= i < |ops| ==> OperationSql(ops[i], d).Ok?
    ensures AlterText(Some(table), ops, d).Ok? ==>
      AlterText(Some(table), ops, d).value
        == Join("; ", seq(|ops|, i requires 0 <= i < |ops| => Statement(table, OperationSql(ops[i], d).value)))
  {
    var clauses := Clauses(ops, d);
    assert forall i :: 0 <= i < |ops| ==> clauses[i] == OperationSql(ops[i], d);
    StatementsInOrder(table, clauses);
    var r := Statements(table, clauses);
    if r.Ok? {
      assert r.value == seq(|ops|, i requires 0 <= i < |ops| => Statement(table, OperationSql(ops[i], d).value));
    }
  }

  /** A failed ALTER reports the error of the first operation that fails. */
  lemma AlterFirstError(table: string, ops: seq<AlterOperation>, d: DatabaseType)
    requires |ops| > 0 && !(d == SQLITE && |ops| > 1)
    requires AlterText(Some(table), ops, d).Err?
    ensures exists i :: 0 <= i < |ops| && OperationSql(ops[i], d) == Err(AlterText(Some(table), ops, d).error)
                        && (forall j :: 0 <= j < i ==> OperationSql(ops[j], d).Ok?)
  {
    var clauses := Clauses(ops, d);
    StatementsInOrder(table, clauses);
    var e := Statements(table, clauses).error;
    var i :| 0 <= i < |clauses| && clauses[i] == Err(e) && (forall j :: 0 <= j < i ==> clauses[j].Ok?);
    assert OperationSql(ops[i], d) == Err(e);
    assert forall j :: 0 <= j < i ==> clauses[j] == OperationSql(ops[j], d);
  }

  /** SQLite refuses exactly the drops, MODIFY COLUMN and a positioned ADD
      COLUMN; everything else renders. */
  lemma SqliteOperations(op: AlterOperation)
    ensures OperationSql(op, SQLITE).Err? <==>
      op.kind in {DropColumn, ModifyColumn, DropPrimaryKey, DropForeignKey, DropUnique}
      || (op.kind == AddColumn && IsPositioning(op.extraInfo))
    ensures OperationSql(op, SQLITE).Err? ==> OperationSql(op, SQLITE).error.UnsupportedOperation?
  {
  }

  /** PostgreSQL drops both kinds of constraint by name; MySQL and MariaDB
      use DROP FOREIGN KEY and DROP INDEX. */
  lemma ConstraintDrops(op: AlterOperation, d: DatabaseType)
    requires op.kind == DropForeignKey || op.kind == DropUnique
    ensures d == POSTGRESQL ==> OperationSql(op, d) == Ok("DROP CONSTRAINT " + AppendText(op.extraInfo))
    ensures (d == MYSQL || d == MARIADB) && op.kind == DropForeignKey ==>
      OperationSql(op, d) == Ok("DROP FOREIGN KEY " + AppendText(op.extraInfo))
    ensures (d == MYSQL || d == MARIADB) && op.kind == DropUnique ==>
      OperationSql(op, d) == Ok("DROP INDEX " + AppendText(op.extraInfo))
  {
  }

  /** FIRST / AFTER positioning in ADD COLUMN is refused on PostgreSQL and
      SQLite, with the dialect's name in the message. */
  lemma AddPositioningRefused(op: AlterOperation, d: DatabaseType)
    requires IsPositioning(op.extraInfo) && (d == POSTGRESQL || d == SQLITE)
    requires op.kind == AddColumn
    ensures OperationSql(op, d) == Err(UnsupportedOperation(Name(d) + NoPositioningSuffix))
  {
    assert OperationSql(op, d) == AddColumnSql(op, d);
  }

  /** FIRST / AFTER positioning in MODIFY COLUMN is refused on PostgreSQL;
      SQLite refuses MODIFY COLUMN before looking at the position. */
  lemma ModifyPositioningRefused(op: AlterOperation, d: DatabaseType)
    requires IsPositioning(op.extraInfo) && (d == POSTGRESQL || d == SQLITE)
    requires op.kind == ModifyColumn
    ensures d == POSTGRESQL ==>
      OperationSql(op, d) == Err(UnsupportedOperation(PostgresNoPositioning))
    ensures d == SQLITE ==>
      OperationSql(op, d) == Err(UnsupportedOperation(SqliteNoModify))
  {
    assert OperationSql(op, d) == ModifyColumnSql(op, d);
  }

  /** On MySQL and MariaDB a column added or modified with position
      `AFTER c` renders ` AFTER c` at the end, once c is validated. */
  lemma AfterPositionOnMysql(op: AlterOperation, d: DatabaseType, after: string)
    requires d == MYSQL || d == MARIADB
    requires op.kind == AddColumn || op.kind == ModifyColumn
    requires op.extraInfo == Some("AFTER " + after)
    ensures !IsIdentifier(after) ==> OperationSql(op, d) == Err(IllegalIdentifier(after))
    ensures IsIdentifier(after) ==> OperationSql(op, d).Ok?
    ensures IsIdentifier(after) ==> EndsWith(OperationSql(op, d).value, " AFTER " + after)
  {
    var p := "AFTER " + after;
    StartsWithConcat("AFTER ", after);
    assert p[6..] == after;
    assert p != "FIRST" by {
      assert |p| >= 6;
    }
    PositionForms(p);
    if op.kind == AddColumn {
      assert OperationSql(op, d) == AddColumnSql(op, d);
      if IsIdentifier(after) {
        EndsWithConcat("ADD COLUMN " + AppendText(op.columnName) + " " + AppendText(op.dataType)
          + NotNullClause(op.notNull) + DefaultClause(op.defaultValue), " AFTER " + after);
      }
    } else {
      assert OperationSql(op, d) == ModifyColumnSql(op, d);
      if IsIdentifier(after) {
        EndsWithConcat("MODIFY COLUMN " + AppendText(op.columnName)
          + (if op.dataType.Some? then " " + op.dataType.value else "")
          + NotNullClause(op.notNull) + DefaultClause(op.defaultValue), " AFTER " + after);
      }
    }
  }

  /** On MySQL and MariaDB a FIRST position renders ` FIRST` at the end of
      an ADD or MODIFY column. */
  lemma FirstPositionOnMysql(op: AlterOperation, d: DatabaseType)
    requires d == MYSQL || d == MARIADB
    requires op.kind == AddColumn || op.kind == ModifyColumn
    requires op.extraInfo == Some("FIRST")
    ensures OperationSql(op, d).Ok?
    ensures EndsWith(OperationSql(op, d).value, " FIRST")
  {
    PositionForms("FIRST");
    if op.kind == AddColumn {
      assert OperationSql(op, d) == AddColumnSql(op, d);
      EndsWithConcat("ADD COLUMN " + AppendText(op.columnName) + " " + AppendText(op.dataType)
        + NotNullClause(op.notNull) + DefaultClause(op.defaultValue), " FIRST");
    } else {
      assert OperationSql(op, d) == ModifyColumnSql(op, d);
      EndsWithConcat("MODIFY COLUMN " + AppendText(op.columnName)
        + (if op.dataType.Some? then " " + op.dataType.value else "")
        + NotNullClause(op.notNull) + DefaultClause(op.defaultValue), " FIRST");
    }
  }

  /** addColumn keeps a bare position as given, and MySQL then renders no
      position at all (unlike modifyColumn, which turns it into AFTER). */
  lemma BarePositionIgnoredOnAdd(columnName: string, dataType: Option<string>, position: string, d: DatabaseType)
    requires IsIdentifier(columnName) && IsBarePosition(position)
    requires d == MYSQL || d == MARIADB
    ensures OperationSql(AddColumnCall(columnName, dataType, false, None, Some(position)).value, d)
        == Ok("ADD COLUMN " + columnName + " " + AppendText(dataType))
  {
    var op := AddColumnCall(columnName, dataType, false, None, Some(position)).value;
    PositionForms(position);
    assert "ADD COLUMN " + columnName + " " + AppendText(dataType) + "" + "" + ""
        == "ADD COLUMN " + columnName + " " + AppendText(dataType);
  }

  /** The PostgreSQL MODIFY clauses: TYPE, SET NOT NULL, then DROP DEFAULT
      for an empty default or SET DEFAULT otherwise, each present exactly
      when its change was asked for. */
  lemma PostgresClausesShape(op: AlterOperation)
    ensures |PostgresClauses(op)| == (if op.dataType.Some? then 1 else 0) + (if op.notNull then 1 else 0)
        + (if op.defaultValue.Some? then 1 else 0)
    ensures op.dataType.Some? ==>
      PostgresClauses(op)[0] == "ALTER COLUMN " + AppendText(op.columnName) + " TYPE " + op.dataType.value
    ensures op.notNull ==>
      PostgresClauses(op)[if op.dataType.Some? then 1 else 0] == "ALTER COLUMN " + AppendText(op.columnName) + " SET NOT NULL"
    ensures op.defaultValue.Some? ==>
      PostgresClauses(op)[|PostgresClauses(op)| - 1] == "ALTER COLUMN " + AppendText(op.columnName)
        + (if |op.defaultValue.value| == 0 then " DROP DEFAULT" else " SET DEFAULT " + op.defaultValue.value)
  {
  }

  /** PostgreSQL MODIFY joins those clauses by ", " and fails exactly when
      none of them applies. */
  lemma PostgresModify(op: AlterOperation)
    requires op.kind == ModifyColumn && !IsPositioning(op.extraInfo)
    ensures OperationSql(op, POSTGRESQL).Err? <==> op.dataType.None? && !op.notNull && op.defaultValue.None?
    ensures OperationSql(op, POSTGRESQL).Err? ==> OperationSql(op, POSTGRESQL).error == IllegalState(ModifyNeedsChange)
    ensures OperationSql(op, POSTGRESQL).Ok? ==> OperationSql(op, POSTGRESQL).value == Join(", ", PostgresClauses(op))
  {
    PostgresClausesShape(op);
    assert OperationSql(op, POSTGRESQL) == ModifyColumnSql(op, POSTGRESQL);
  }

  /** Renaming a column: RENAME COLUMN on SQLite and PostgreSQL; CHANGE
      COLUMN with the data type on MySQL and MariaDB, which refuse it
      without one. */
  lemma RenameColumnByDialect(op: AlterOperation, d: DatabaseType)
    requires op.kind == RenameColumn
    ensures (d == SQLITE || d == POSTGRESQL) ==>
      OperationSql(op, d) == Ok("RENAME COLUMN " + AppendText(op.columnName) + " TO " + AppendText(op.extraInfo))
    ensures (d == MYSQL || d == MARIADB) && op.dataType.None? ==>
      OperationSql(op, d) == Err(IllegalState(RenameNeedsType))
    ensures (d == MYSQL || d == MARIADB) && op.dataType.Some? ==>
      OperationSql(op, d)
        == Ok("CHANGE COLUMN " + AppendText(op.columnName) + " " + AppendText(op.extraInfo) + " " + op.dataType.value)
  {
  }

  /** Decoding a stored reference gives back the constraint name and the
      reference: validated names hold no ':'. */
  lemma ReferenceRoundTrip(constraintName: Option<string>, referenceTable: string, referenceColumn: string)
    requires constraintName.Some? ==> IsIdentifier(constraintName.value)
    requires IsIdentifier(referenceTable) && IsIdentifier(referenceColumn)
    ensures DecodeReference(Some(EncodeReference(constraintName, referenceTable, referenceColumn)))
        == (constraintName, Some(referenceTable + "(" + referenceColumn + ")"))
  {
    var reference := referenceTable + "(" + referenceColumn + ")";
    IdentifierAvoids(referenceTable, ':');
    IdentifierAvoids(referenceColumn, ':');
    assert ':' !in reference;
    if constraintName.Some? {
      var c := constraintName.value;
      var e := c + ":" + reference;
      IdentifierAvoids(c, ':');
      assert e[|c|] == ':';
      assert Contains(e, ':');
      assert forall k :: 0 <= k < |c| ==> e[k] == c[k];
      assert IndexOf(e, ':', 0) == |c|;
      assert e[..|c|] == c;
      assert e[|c| + 1..] == reference;
    } else {
      assert !Contains(reference, ':');
    }
  }

  /** A foreign key added with a constraint name renders ADD CONSTRAINT
      with that name before the FOREIGN KEY clause, on every dialect. */
  lemma ForeignKeyRendering(columnName: string, referenceTable: string, referenceColumn: string,
                            constraintName: Option<string>, d: DatabaseType)
    requires ForeignKeyCall(columnName, referenceTable, referenceColumn, constraintName).Ok?
    ensures OperationSql(ForeignKeyCall(columnName, referenceTable, referenceColumn, constraintName).value, d)
        == Ok((if constraintName.Some? then "ADD CONSTRAINT " + constraintName.value + " " else "")
              + "FOREIGN KEY (" + columnName + ") REFERENCES " + referenceTable + "(" + referenceColumn + ")")
  {
    var reference := referenceTable + "(" + referenceColumn + ")";
    var op := ForeignKeyCall(columnName, referenceTable, referenceColumn, constraintName).value;
    assert op == AlterOperation(AddForeignKey, Some(columnName), None, false, None,
                                Some(EncodeReference(constraintName, referenceTable, referenceColumn)));
    ReferenceRoundTrip(constraintName, referenceTable, referenceColumn);
    assert DecodeReference(op.extraInfo) == (constraintName, Some(reference));
    var prefix := if constraintName.Some? then "ADD CONSTRAINT " + constraintName.value + " " else "";
    assert OperationSql(op, d) == Ok(ForeignKeySql(op));
    assert ForeignKeySql(op) == prefix + "FOREIGN KEY (" + columnName + ") REFERENCES " + reference;
    assert prefix + "FOREIGN KEY (" + columnName + ") REFERENCES " + reference
        == prefix + "FOREIGN KEY (" + columnName + ") REFERENCES " + referenceTable + "(" + referenceColumn + ")";
  }

  // ---------------------------------------------------------------------
  // The builder

  /** What an adder leaves behind: the operation appended and normal
      return, or the exception and the queue unchanged. */
  predicate Recorded(before: seq<AlterOperation>, after: seq<AlterOperation>,
                     call: Result<AlterOperation>, r: Result<()>)
  {
    match call
    case Ok(op) => r == Ok(()) && after == before + [op]
    case Err(e) => r == Err(e) && after == before
  }

  /** The for loop of addPrimaryKey and addUnique. */
  method ValidateEach(names: seq<string>) returns (r: Result<()>)
    ensures r == ValidateAll(names)
  {
    for i := 0 to |names|
      invariant ValidateAll(names) == ValidateAll(names[i..])
    {
      assert names[i..][1..] == names[i + 1..];
      if !IsIdentifier(names[i]) {
        return Err(IllegalIdentifier(names[i]));
      }
    }
    assert names[|names|..] == [];
    r := Ok(());
  }

  class AlterTableSQL {
    var tableName: Option<string>
    var operations: seq<AlterOperation>

    constructor()
      ensures tableName == None && operations == []
    {
      tableName := None;
      operations := [];
    }

    /** table(tableName): validated before it is stored. */
    method Table(tableName: string) returns (r: Result<()>)
      modifies this
      ensures r == ValidateIdentifier(tableName)
      ensures this.tableName == if r.Ok? then Some(tableName) else old(this.tableName)
      ensures operations == old(operations)
    {
      r := ValidateIdentifier(tableName);
      if r.Ok? {
        this.tableName := Some(tableName);
      }
    }

    method Append(call: Result<AlterOperation>) returns (r: Result<()>)
      modifies this
      ensures Recorded(old(operations), operations, call, r)
      ensures tableName == old(tableName)
    {
      match call
      case Ok(op) =>
        operations := operations + [op];
        r := Ok(());
      case Err(e) =>
        r := Err(e);
    }

    /** addColumn; the two shorter overloads pass false and nulls. */
    method AddColumn(columnName: string, dataType: Option<string>, notNull: bool,
                     defaultValue: Option<string>, position: Option<string>) returns (r: Result<()>)
      modifies this
      ensures Recorded(old(operations), operations, AddColumnCall(columnName, dataType, notNull, defaultValue, position), r)
      ensures tableName == old(tableName)
    {
      r := Append(AddColumnCall(columnName, dataType, notNull, defaultValue, position));
    }

    method DropColumn(columnName: string) returns (r: Result<()>)
      modifies this
      ensures Recorded(old(operations), operations, DropColumnCall(columnName), r)
      ensures tableName == old(tableName)
    {
      r := Append(DropColumnCall(columnName));
    }

    /** modifyColumn; the two shorter overloads pass false and nulls. */
    method ModifyColumn(columnName: string, dataType: Option<string>, notNull: bool,
                        defaultValue: Option<string>, position: Option<string>) returns (r: Result<()>)
      modifies this
      ensures Recorded(old(operations), operations, ModifyColumnCall(columnName, dataType, notNull, defaultValue, position), r)
      ensures tableName == old(tableName)
    {
      r := Append(ModifyColumnCall(columnName, dataType, notNull, defaultValue, position));
    }

    method MoveColumnFirst(columnName: string, dataType: Option<string>) returns (r: Result<()>)
      modifies this
      ensures Recorded(old(operations), operations, ModifyColumnCall(columnName, dataType, false, None, Some("FIRST")), r)
      ensures tableName == old(tableName)
    {
      r := ModifyColumn(columnName, dataType, false, None, Some("FIRST"));
    }

    method MoveColumnAfter(columnName: string, dataType: Option<string>, afterColumnName: Option<string>)
      returns (r: Result<()>)
      modifies this
      ensures Recorded(old(operations), operations, ModifyColumnCall(columnName, dataType, false, None, afterColumnName), r)
      ensures tableName == old(tableName)
    {
      r := ModifyColumn(columnName, dataType, false, None, afterColumnName);
    }

    /** renameColumn; the shorter overload passes a null data type. */
    method RenameColumn(oldName: string, newName: string, dataType: Option<string>) returns (r: Result<()>)
      modifies this
      ensures Recorded(old(operations), operations, RenameColumnCall(oldName, newName, dataType), r)
      ensures tableName == old(tableName)
    {
      r := Append(RenameColumnCall(oldName, newName, dataType));
    }

    method AddPrimaryKey(names: seq<string>) returns (r: Result<()>)
      modifies this
      ensures Recorded(old(operations), operations, ColumnListCall(OperationType.AddPrimaryKey, names), r)
      ensures tableName == old(tableName)
    {
      r := ValidateEach(names);
      if r.Ok? {
        r := Append(ColumnListCall(OperationType.AddPrimaryKey, names));
      }
    }

    method DropPrimaryKey()
      modifies this
      ensures operations == old(operations) + [DropPrimaryKeyOperation]
      ensures tableName == old(tableName)
    {
      operations := operations + [DropPrimaryKeyOperation];
    }

    /** addForeignKey; the shorter overload passes a null constraint name. */
    method AddForeignKey(columnName: string, referenceTable: string, referenceColumn: string,
                         constraintName: Option<string>) returns (r: Result<()>)
      modifies this
      ensures Recorded(old(operations), operations,
                       ForeignKeyCall(columnName, referenceTable, referenceColumn, constraintName), r)
      ensures tableName == old(tableName)
    {
      r := Append(ForeignKeyCall(columnName, referenceTable, referenceColumn, constraintName));
    }

    method DropForeignKey(constraintName: string) returns (r: Result<()>)
      modifies this
      ensures Recorded(old(operations), operations, NamedCall(OperationType.DropForeignKey, constraintName), r)
      ensures tableName == old(tableName)
    {
      r := Append(NamedCall(OperationType.DropForeignKey, constraintName));
    }

    method AddUnique(names: seq<string>) returns (r: Result<()>)
      modifies this
      ensures Recorded(old(operations), operations, ColumnListCall(OperationType.AddUnique, names), r)
      ensures tableName == old(tableName)
    {
      r := ValidateEach(names);
      if r.Ok? {
        r := Append(ColumnListCall(OperationType.AddUnique, names));
      }
    }

    method DropUnique(constraintName: string) returns (r: Result<()>)
      modifies this
      ensures Recorded(old(operations), operations, NamedCall(OperationType.DropUnique, constraintName), r)
      ensures tableName == old(tableName)
    {
      r := Append(NamedCall(OperationType.DropUnique, constraintName));
    }

    method RenameTable(newTableName: string) returns (r: Result<()>)
      modifies this
      ensures Recorded(old(operations), operations, NamedCall(OperationType.RenameTable, newTableName), r)
      ensures tableName == old(tableName)
    {
      r := Append(NamedCall(OperationType.RenameTable, newTableName));
    }

    /** getSql(type): the loop over the queue, one statement per operation. */
    method GetSql(d: DatabaseType) returns (r: Result<string>)
      ensures r == AlterText(tableName, operations, d)
    {
      if tableName.None? {
        return Err(IllegalState(AlterNeedsTable));
      }
      if |operations| == 0 {
        return Err(IllegalState(AlterNeedsOperation));
      }
      if d == SQLITE && |operations| > 1 {
        return Err(UnsupportedOperation(SqliteOneOperation));
      }
      var table := tableName.value;
      ghost var clauses := Clauses(operations, d);
      var sql := "";
      for i := 0 to |operations|
        invariant Statements(table, clauses[..i]).Ok?
        invariant sql == Join("; ", Statements(table, clauses[..i]).value)
      {
        var done := Statements(table, clauses[..i]).value;
        StatementsStep(table, clauses, i);
        var clause := OperationSql(operations[i], d);
        assert clause == clauses[i];
        if clause.Err? {
          StatementsPrefixError(table, clauses, i + 1);
          return Err(clause.error);
        }
        var statement := "ALTER TABLE " + table + " " + clause.value;
        JoinAppend("; ", done, statement);
        if i > 0 {
          sql := sql + "; " + statement;
        } else {
          sql := statement;
        }
      }
      assert clauses[..|operations|] == clauses;
      r := Ok(sql);
    }

    /** build: the text prepared as it is, nothing bound. */
    method Build(d: DatabaseType) returns (r: Result<PreparedStatement>)
      ensures AlterText(tableName, operations, d).Ok? ==> r == Ok(PrepareOnly(AlterText(tableName, operations, d).value))
      ensures AlterText(tableName, operations, d).Err? ==> r == Err(AlterText(tableName, operations, d).error)
    {
      var sql :- GetSql(d);
      r := Ok(PrepareOnly(sql));
    }
  }

  /** SQL.alterTable() */
  method NewAlterTable() returns (s: AlterTableSQL)
    ensures fresh(s) && s.tableName == None && s.operations == []
  {
    s := new AlterTableSQL();
  }
}
