# MDatabase statement builders, conditions and object mapping in Dafny

MDatabase is a small Java library that assembles SQL text for four dialects
(SQLite, MySQL, MariaDB and PostgreSQL), binds its parameters to a JDBC
prepared statement and maps annotated Java classes to tables. This project
models its core and proves properties of the model.

- **Statement builders.** `SQL` validates identifiers, counts `?` placeholders and binds parameters. The builders for
  INSERT/upsert, DELETE, ALTER TABLE, CREATE INDEX, CREATE VIEW, DROP and TRUNCATE are classes whose fields the builder
  calls update, as in the Java code. Their `GetSql` methods are proved against text functions of the builder state per
  dialect, and their `Build` methods against `Sql.BuildResult`: the placeholder check and the positional binding.
- **Conditions.** The condition factory (`eq`, `ne`, `gt`, `lt`, `like`, `isNull`, `isNotNull`, `in`, `notIn`,
  `between`) builds immutable simple conditions. Their text and parameter lists are modelled exactly, including the
  as-written mismatch between placeholders and parameters for `between` and non-empty `in`/`notIn`.
- **ObjectSerializer.** The registry of converters and cached fields is a class holding the two static maps.
  getAllFields, getCachedFields, serializeOne and serializeMulti are methods proved against functions over a
  `Registry` value. Reflection is replaced by field and class descriptors. A result-set row is a map from column
  name to the value the getter returns.
- **UUIDConverter and DatabaseType.** The UUID converter is modelled together with the canonical text form of a
  UUID, both directions proved inverse. `DatabaseType.getByName` is modelled with ASCII case folding.
- **AbstractSQLConnection.** Its statement assembly is a class whose methods take the serializer they use. They
  check `@Table`, gather the fields and make the builder calls of `selectOne`, `selectMulti`, `createTableByClass`,
  `insertObject`, `updateObject` and `deleteObject`. Builders that are not part of this model are represented by
  records of the calls made on them: `SelectSQL`, `UpdateSQL` and `CreateTableSQL`.

Java `null` is `Option.None` wherever the code tests for it. `StringBuilder.append` of a null string appends
`null`. Every exception the code throws is an `Err` of `Errors.Error`, and code that goes on after a call that may
throw stops at the first error.

## Model

| member | source | states |
|---|---|---|
| Sql.ValidateIdentifier | src/main/java/io/github/lijinhong11/mdatabase/sql/sentence/SQL.java:153-157 | returns normally exactly for strings in the language [a-zA-Z_][a-zA-Z0-9_]*; otherwise reports IllegalIdentifier naming the rejected string |
| Sql.IdentifierAvoids | src/main/java/io/github/lijinhong11/mdatabase/sql/sentence/SQL.java:153-157 | a validated identifier holds no '?', blank, parenthesis, comma or other non-identifier character, so it contributes no placeholder to any statement |
| Sql.BuildResult | src/main/java/io/github/lijinhong11/mdatabase/sql/sentence/SQL.java:124-140 | build succeeds exactly when the rendered text holds as many '?' as parameters were collected; on mismatch the error carries the expected and actual counts; on success parameter i is bound at position i + 1 and no other position is bound |
| Sql.Bound | src/main/java/io/github/lijinhong11/mdatabase/sql/sentence/SQL.java:135-137 | after n setObject calls exactly positions 1..n are bound, position i + 1 to parameter i |
| Sql.PrepareOnly | src/main/java/io/github/lijinhong11/mdatabase/sql/sentence/TruncateSQL.java:52-56 | the statement the overriding build methods prepare carries the text and no bindings |
| Sql.CountParametersInSql | src/main/java/io/github/lijinhong11/mdatabase/sql/sentence/SQL.java:142-149 | the indexOf loop returns the number of '?' in the text (its multiplicity, see Text.OccurrencesIsMultiplicity) |
| Sql.SkipCount | src/main/java/io/github/lijinhong11/mdatabase/sql/sentence/SQL.java:145-147 | one step of the indexOf loop passes exactly one '?': the count up to the next '?' (or to the end) grows by one |
| Sql.PlaceholderThenGap | src/main/java/io/github/lijinhong11/mdatabase/sql/sentence/SQL.java:145-147 | a '?' followed by a '?'-free stretch adds exactly one to the count of the prefix |
| Sql.BindParameters | src/main/java/io/github/lijinhong11/mdatabase/sql/sentence/SQL.java:129-139 | the count check and the binding loop of build produce exactly BuildResult: the same error on mismatch, the same bindings otherwise |
| Text.OccurrencesIsMultiplicity | src/main/java/io/github/lijinhong11/mdatabase/sql/sentence/SQL.java:142-149 | the placeholder count is the multiplicity of '?' in the text |
| Text.OccurrencesConcat | src/main/java/io/github/lijinhong11/mdatabase/sql/sentence/SQL.java:142-149 | the placeholder count of a concatenation is the sum of the counts of its parts |
| Text.NoOccurrences | src/main/java/io/github/lijinhong11/mdatabase/sql/sentence/SQL.java:142-149 | a text that does not contain '?' counts zero |
| Text.IndexOf | src/main/java/io/github/lijinhong11/mdatabase/sql/sentence/SQL.java:145 | String.indexOf(c, from): -1 when no position at or after from holds c, otherwise the first such position |
| Text.AppendText | src/main/java/io/github/lijinhong11/mdatabase/sql/sentence/DeleteSQL.java:26 | StringBuilder.append of a String: the string itself, or the four characters null for a null reference |
| Text.Copies | src/main/java/io/github/lijinhong11/mdatabase/sql/conditions/Conditions.java:111 | Collections.nCopies(n, s) has n elements, each s |
| Text.JoinAppend | src/main/java/io/github/lijinhong11/mdatabase/sql/sentence/AlterTableSQL.java:160-165 | String.join over one more element appends the separator and the element (just the element for an empty list) |
| Text.JoinExcludes | src/main/java/io/github/lijinhong11/mdatabase/sql/sentence/InsertSQL.java:48-52 | a join of elements and a separator that all avoid a character avoids it |
| Text.PlaceholdersCount | src/main/java/io/github/lijinhong11/mdatabase/sql/conditions/Conditions.java:111 | String.join(", ", nCopies(n, "?")) holds exactly n placeholders |
| Text.StartsWithConcat | src/main/java/io/github/lijinhong11/mdatabase/sql/sentence/DeleteSQL.java:26 | a text begins with whatever was appended to the builder first |
| Text.EndsWithConcat | src/main/java/io/github/lijinhong11/mdatabase/sql/sentence/CreateViewSQL.java:84 | a text ends with whatever was appended to the builder last |
| Text.TrimStart | src/main/java/io/github/lijinhong11/mdatabase/sql/sentence/CreateViewSQL.java:22-25 | String.trim's leading part: removes exactly the leading characters at or below U+0020 |
| Text.TrimEnd | src/main/java/io/github/lijinhong11/mdatabase/sql/sentence/CreateViewSQL.java:22-25 | String.trim's trailing part: removes exactly the trailing characters at or below U+0020 |
| Text.TrimEmpty | src/main/java/io/github/lijinhong11/mdatabase/sql/sentence/CreateViewSQL.java:22-25 | trimming leaves nothing exactly when every character is at or below U+0020 |
| Text.LowerCase | src/main/java/io/github/lijinhong11/mdatabase/enums/DatabaseType.java:11 | the lower-case spelling used to look a constant up maps each character position by position (ASCII letters only) |
| Conditions.SimpleSqlShape | src/main/java/io/github/lijinhong11/mdatabase/sql/conditions/SimpleCondition.java:17-20 | a SimpleCondition's text starts with its column, ends with the appended " ?", and holds the column's and the operator's placeholders plus one |
| Conditions.PlaceholderCount | src/main/java/io/github/lijinhong11/mdatabase/sql/conditions/SimpleCondition.java:19 | the appended " ?" holds exactly one placeholder |
| Conditions.GetParameters | src/main/java/io/github/lijinhong11/mdatabase/sql/conditions/SimpleCondition.java:22-25 | a SimpleCondition yields exactly one parameter, its stored value, whatever that value is |
| Conditions.WhereParameters | src/main/java/io/github/lijinhong11/mdatabase/sql/sentence/DeleteSQL.java:28-31 | a builder adds no parameter without a condition and exactly the condition's parameters with one |
| Conditions.WhereClauseCount | src/main/java/io/github/lijinhong11/mdatabase/sql/sentence/DeleteSQL.java:28-31 | the WHERE part holds exactly the condition's placeholders, none without a condition |
| Conditions.WhereBalancedIff | src/main/java/io/github/lijinhong11/mdatabase/sql/sentence/DeleteSQL.java:28-31 | the WHERE part's placeholders match its parameters exactly when there is no condition or the condition is balanced |
| Conditions.ComparisonRendering | src/main/java/io/github/lijinhong11/mdatabase/sql/conditions/Conditions.java:15-61 | eq, ne, gt, lt and like render `column op ?` with the column verbatim and bind exactly the given value (the pattern for like) |
| Conditions.NullCheckRendering | src/main/java/io/github/lijinhong11/mdatabase/sql/conditions/Conditions.java:69-81 | isNull and isNotNull render `column IS ?` and `column IS NOT ?` and bind one null |
| Conditions.SimpleBalancedIff | src/main/java/io/github/lijinhong11/mdatabase/sql/conditions/SimpleCondition.java:11-25 | a SimpleCondition is balanced exactly when neither its column nor its operator holds a '?' |
| Conditions.SimpleBalanced | src/main/java/io/github/lijinhong11/mdatabase/sql/conditions/SimpleCondition.java:17-25 | a '?'-free column and operator give a balanced condition |
| Conditions.ComparisonsBalanced | src/main/java/io/github/lijinhong11/mdatabase/sql/conditions/Conditions.java:15-50 | eq, ne, gt and lt on a '?'-free column are balanced |
| Conditions.LikeBalanced | src/main/java/io/github/lijinhong11/mdatabase/sql/conditions/Conditions.java:59-61 | like on a '?'-free column is balanced, null pattern included |
| Conditions.IsNullBalanced | src/main/java/io/github/lijinhong11/mdatabase/sql/conditions/Conditions.java:69-71 | isNull on a '?'-free column is balanced |
| Conditions.IsNotNullBalanced | src/main/java/io/github/lijinhong11/mdatabase/sql/conditions/Conditions.java:79-81 | isNotNull on a '?'-free column is balanced |
| Conditions.InPlaceholderCount | src/main/java/io/github/lijinhong11/mdatabase/sql/conditions/Conditions.java:110-125 | in and notIn with n values hold n + 1 placeholders beyond the column's, against one parameter: the whole list |
| Conditions.OperatorCount | src/main/java/io/github/lijinhong11/mdatabase/sql/conditions/Conditions.java:112 | the IN operator's placeholders are exactly those of its placeholder list |
| Conditions.InBalancedIffEmpty | src/main/java/io/github/lijinhong11/mdatabase/sql/conditions/Conditions.java:110-125 | in and notIn on a '?'-free column are balanced exactly when the list is empty |
| Conditions.InEmptyRendering | src/main/java/io/github/lijinhong11/mdatabase/sql/conditions/Conditions.java:110-125 | an empty list is accepted and renders `column IN () ?` / `column NOT IN () ?` |
| Conditions.BetweenRendering | src/main/java/io/github/lijinhong11/mdatabase/sql/conditions/Conditions.java:135-137 | between renders `column BETWEEN ? AND ? ?` with one two-element list as its parameter |
| Conditions.BetweenOperatorCount | src/main/java/io/github/lijinhong11/mdatabase/sql/conditions/Conditions.java:136 | the between operator holds two placeholders of its own |
| Conditions.BetweenUnbalanced | src/main/java/io/github/lijinhong11/mdatabase/sql/conditions/Conditions.java:135-137 | between holds three placeholders beyond the column's against one parameter, so it is never balanced |
| DeleteSql.DeleteShape | src/main/java/io/github/lijinhong11/mdatabase/sql/sentence/DeleteSQL.java:23-34 | the text starts with DELETE FROM and the table; it is exactly that without a condition, and that followed by ` WHERE ` and the condition's text with one |
| DeleteSql.DeletePlaceholders | src/main/java/io/github/lijinhong11/mdatabase/sql/sentence/DeleteSQL.java:23-34 | a DELETE on a validated table holds exactly the WHERE part's placeholders |
| DeleteSql.DeleteBuildSucceedsIff | src/main/java/io/github/lijinhong11/mdatabase/sql/sentence/SQL.java:124-140 | build of a DELETE fails exactly when its condition is unbalanced; without a condition it prepares the text with nothing bound |
| DeleteSql.DeleteSQL.constructor | src/main/java/io/github/lijinhong11/mdatabase/sql/sentence/DeleteSQL.java:10 | a new builder has no table, no condition and no parameters |
| DeleteSql.DeleteSQL.From | src/main/java/io/github/lijinhong11/mdatabase/sql/sentence/DeleteSQL.java:12-16 | the table is validated and stored only when it is an identifier; the error is validateIdentifier's; nothing else changes |
| DeleteSql.DeleteSQL.Where | src/main/java/io/github/lijinhong11/mdatabase/sql/sentence/DeleteSQL.java:18-21 | stores the condition (null removes it); nothing else changes |
| DeleteSql.DeleteSQL.GetSql | src/main/java/io/github/lijinhong11/mdatabase/sql/sentence/DeleteSQL.java:23-34 | returns DeleteText for any dialect and appends the condition's parameters to those already collected |
| DeleteSql.DeleteSQL.Build | src/main/java/io/github/lijinhong11/mdatabase/sql/sentence/SQL.java:124-140 | clears the parameters, renders once and returns BuildResult on that text and exactly the condition's parameters |
| DeleteSql.NewDelete | src/main/java/io/github/lijinhong11/mdatabase/sql/sentence/SQL.java:58-60 | SQL.delete() returns a fresh empty builder |
| TruncateSql.TruncateByDialect | src/main/java/io/github/lijinhong11/mdatabase/sql/sentence/TruncateSQL.java:29-50 | off PostgreSQL the text is `TRUNCATE TABLE t`; on PostgreSQL RESTART IDENTITY and then CASCADE follow when set |
| TruncateSql.TruncateNeedsTable | src/main/java/io/github/lijinhong11/mdatabase/sql/sentence/TruncateSQL.java:30-33 | getSql fails exactly when no table was set, with that IllegalStateException, before the dialect is consulted; otherwise the text starts with `TRUNCATE TABLE` and the table |
| TruncateSql.TruncateSQL.constructor | src/main/java/io/github/lijinhong11/mdatabase/sql/sentence/TruncateSQL.java:10-11 | a new builder has no table and neither option |
| TruncateSql.TruncateSQL.Table | src/main/java/io/github/lijinhong11/mdatabase/sql/sentence/TruncateSQL.java:13-17 | the table is validated and stored only when it is an identifier; the options stay |
| TruncateSql.TruncateSQL.RestartIdentity | src/main/java/io/github/lijinhong11/mdatabase/sql/sentence/TruncateSQL.java:19-22 | sets RESTART IDENTITY; nothing else changes |
| TruncateSql.TruncateSQL.Cascade | src/main/java/io/github/lijinhong11/mdatabase/sql/sentence/TruncateSQL.java:24-27 | sets CASCADE; nothing else changes |
| TruncateSql.TruncateSQL.GetSql | src/main/java/io/github/lijinhong11/mdatabase/sql/sentence/TruncateSQL.java:29-50 | returns TruncateText of the builder's state and dialect |
| TruncateSql.TruncateSQL.Build | src/main/java/io/github/lijinhong11/mdatabase/sql/sentence/TruncateSQL.java:52-56 | prepares getSql's text with nothing bound, or propagates getSql's error |
| TruncateSql.NewTruncate | src/main/java/io/github/lijinhong11/mdatabase/sql/sentence/SQL.java:112-114 | SQL.truncate() returns a fresh empty builder |
| InsertSql.ColumnValues.Values | src/main/java/io/github/lijinhong11/mdatabase/sql/sentence/InsertSQL.java:53 | values() of the LinkedHashMap: one value per column, the column's latest value, in key order |
| InsertSql.ColumnValues.Put | src/main/java/io/github/lijinhong11/mdatabase/sql/sentence/InsertSQL.java:25-29 | put keeps the map duplicate-free: a new column goes last, an existing one keeps its position, and the column maps to the new value |
| InsertSql.PutKeepsOrder | src/main/java/io/github/lijinhong11/mdatabase/sql/sentence/InsertSQL.java:27 | after put every earlier column stays at its position, and its value changes exactly when it is the column put |
| InsertSql.PutTwice | src/main/java/io/github/lijinhong11/mdatabase/sql/sentence/InsertSQL.java:27 | putting a column twice leaves one entry, with the second value |
| InsertSql.UpdateEntries | src/main/java/io/github/lijinhong11/mdatabase/sql/sentence/InsertSQL.java:59-62 | the MySQL update list has one `c=VALUES(c)` entry per column, in key order |
| InsertSql.UpdateList | src/main/java/io/github/lijinhong11/mdatabase/sql/sentence/InsertSQL.java:59-62 | the for loop over keySet() builds exactly UpdateEntries |
| InsertSql.HeadDecides | src/main/java/io/github/lijinhong11/mdatabase/sql/sentence/InsertSQL.java:39-45 | the start is `INSERT OR REPLACE INTO ` exactly for an upsert on SQLite, and `INSERT INTO ` otherwise |
| InsertSql.InsertPrefix | src/main/java/io/github/lijinhong11/mdatabase/sql/sentence/InsertSQL.java:37-45 | the whole text starts `INSERT OR REPLACE INTO ` exactly for an upsert on SQLite, and `INSERT INTO ` otherwise |
| InsertSql.UpsertIgnoredOn | src/main/java/io/github/lijinhong11/mdatabase/sql/sentence/InsertSQL.java:41-65 | an upsert on MariaDB or PostgreSQL renders exactly the plain insert: no conflict clause is emitted for them |
| InsertSql.TableFree | src/main/java/io/github/lijinhong11/mdatabase/sql/sentence/InsertSQL.java:19-23 | a validated table name (or the text null) contributes no placeholder |
| InsertSql.IdentifiersExclude | src/main/java/io/github/lijinhong11/mdatabase/sql/sentence/InsertSQL.java:25-29 | validated columns avoid every character that is not an identifier character |
| InsertSql.ColumnListCount | src/main/java/io/github/lijinhong11/mdatabase/sql/sentence/InsertSQL.java:47-54 | the column list holds exactly one placeholder per column, and nothing for no columns |
| InsertSql.UpsertClauseFree | src/main/java/io/github/lijinhong11/mdatabase/sql/sentence/InsertSQL.java:56-65 | the MySQL update list holds no placeholder |
| InsertSql.InsertPlaceholders | src/main/java/io/github/lijinhong11/mdatabase/sql/sentence/InsertSQL.java:36-73 | a valid builder's text holds one placeholder per column plus the condition's |
| InsertSql.InsertBuildSucceedsIff | src/main/java/io/github/lijinhong11/mdatabase/sql/sentence/SQL.java:124-140 | build of a valid insert fails exactly when its condition is unbalanced: the values always match their placeholders |
| InsertSql.InsertWithInFails | src/main/java/io/github/lijinhong11/mdatabase/sql/conditions/Conditions.java:110-113 | an insert whose condition is in(...) over one or more values can never be built |
| InsertSql.InsertSQL.constructor | src/main/java/io/github/lijinhong11/mdatabase/sql/sentence/InsertSQL.java:15-17 | a new builder keeps the upsert flag and has no table, no values, no condition and no parameters |
| InsertSql.InsertSQL.Into | src/main/java/io/github/lijinhong11/mdatabase/sql/sentence/InsertSQL.java:19-23 | the table is stored only when it is an identifier; the error is validateIdentifier's; nothing else changes |
| InsertSql.InsertSQL.Value | src/main/java/io/github/lijinhong11/mdatabase/sql/sentence/InsertSQL.java:25-29 | the column is put only when it is an identifier; the error is validateIdentifier's; nothing else changes |
| InsertSql.InsertSQL.Where | src/main/java/io/github/lijinhong11/mdatabase/sql/sentence/InsertSQL.java:31-34 | stores the condition (null removes it); nothing else changes |
| InsertSql.InsertSQL.GetSql | src/main/java/io/github/lijinhong11/mdatabase/sql/sentence/InsertSQL.java:36-73 | returns InsertText for the dialect and appends the values in key order, then the condition's parameters, to those already collected |
| InsertSql.InsertSQL.Build | src/main/java/io/github/lijinhong11/mdatabase/sql/sentence/SQL.java:124-140 | clears the parameters, renders once and returns BuildResult on that text and exactly the values followed by the condition's parameters |
| InsertSql.NewInsert | src/main/java/io/github/lijinhong11/mdatabase/sql/sentence/SQL.java:30-32 | SQL.insert() returns a fresh builder that is not an upsert |
| InsertSql.NewUpsert | src/main/java/io/github/lijinhong11/mdatabase/sql/sentence/SQL.java:40-42 | SQL.upsert() returns a fresh builder that is an upsert |
| CreateViewSql.ViewChecks | src/main/java/io/github/lijinhong11/mdatabase/sql/sentence/CreateViewSQL.java:50-74 | getSql fails without a view name; then without a query; then, with both, exactly for OR REPLACE on SQLite |
| CreateViewSql.ViewEndsWithQuery | src/main/java/io/github/lijinhong11/mdatabase/sql/sentence/CreateViewSQL.java:55-84 | a rendered view starts with `CREATE [OR REPLACE] VIEW ` and ends with ` AS ` and the query, a SELECT builder's rendering taking precedence over literal text |
| CreateViewSql.ViewIfNotExistsByDialect | src/main/java/io/github/lijinhong11/mdatabase/sql/sentence/CreateViewSQL.java:78-82 | IF NOT EXISTS changes nothing off PostgreSQL; on PostgreSQL it follows `VIEW ` |
| CreateViewSql.AsQueryCall | src/main/java/io/github/lijinhong11/mdatabase/sql/sentence/CreateViewSQL.java:21-25 | as(String) accepts exactly a present query with a character above U+0020, storing its trimmed, non-empty form; otherwise IllegalArgumentException |
| CreateViewSql.ValidViewText | src/main/java/io/github/lijinhong11/mdatabase/sql/sentence/CreateViewSQL.java:49-62 | on a builder in its valid state, rendering succeeds exactly when one of the as(...) calls succeeded and it is not OR REPLACE on SQLite |
| CreateViewSql.CreateViewSQL.constructor | src/main/java/io/github/lijinhong11/mdatabase/sql/sentence/CreateViewSQL.java:12-13 | a new builder has no name, no query and neither flag |
| CreateViewSql.CreateViewSQL.View | src/main/java/io/github/lijinhong11/mdatabase/sql/sentence/CreateViewSQL.java:15-19 | the name is stored only when it is an identifier; nothing else changes |
| CreateViewSql.CreateViewSQL.As | src/main/java/io/github/lijinhong11/mdatabase/sql/sentence/CreateViewSQL.java:21-28 | stores the trimmed text and forgets a SELECT builder, or fails and changes nothing |
| CreateViewSql.CreateViewSQL.AsSelect | src/main/java/io/github/lijinhong11/mdatabase/sql/sentence/CreateViewSQL.java:30-37 | stores the builder and forgets literal text, or fails for null and changes nothing |
| CreateViewSql.CreateViewSQL.OrReplace | src/main/java/io/github/lijinhong11/mdatabase/sql/sentence/CreateViewSQL.java:39-42 | sets OR REPLACE; nothing else changes |
| CreateViewSql.CreateViewSQL.IfNotExists | src/main/java/io/github/lijinhong11/mdatabase/sql/sentence/CreateViewSQL.java:44-47 | sets IF NOT EXISTS; nothing else changes |
| CreateViewSql.CreateViewSQL.GetSql | src/main/java/io/github/lijinhong11/mdatabase/sql/sentence/CreateViewSQL.java:49-87 | returns ViewText of the builder's state and dialect |
| CreateViewSql.CreateViewSQL.Build | src/main/java/io/github/lijinhong11/mdatabase/sql/sentence/CreateViewSQL.java:89-93 | prepares getSql's text with nothing bound, or propagates getSql's error |
| CreateViewSql.NewCreateView | src/main/java/io/github/lijinhong11/mdatabase/sql/sentence/SQL.java:103-105 | SQL.createView() returns a fresh empty builder |
| DatabaseTypes.AllTypesComplete | src/main/java/io/github/lijinhong11/mdatabase/enums/DatabaseType.java:3-7 | values() lists every constant |
| DatabaseTypes.FindByName | src/main/java/io/github/lijinhong11/mdatabase/enums/DatabaseType.java:10-15 | the loop returns a listed constant whose name equals the given name ignoring case, and none only when no listed constant matches |
| DatabaseTypes.GetByName | src/main/java/io/github/lijinhong11/mdatabase/enums/DatabaseType.java:9-16 | getByName finds a constant exactly when some constant's name equals the given one ignoring case; null matches nothing |
| DatabaseTypes.AtMostOneMatches | src/main/java/io/github/lijinhong11/mdatabase/enums/DatabaseType.java:9-16 | at most one constant matches any name, so the order of values() does not matter |
| DatabaseTypes.GetByNameOfName | src/main/java/io/github/lijinhong11/mdatabase/enums/DatabaseType.java:9-16 | getByName(d.name()) is d for every constant |
| DatabaseTypes.CharEqualsIgnoreCaseIsUpper | src/main/java/io/github/lijinhong11/mdatabase/enums/DatabaseType.java:11 | with ASCII case folding, equalsIgnoreCase on characters is equality of their upper-case forms |
| DatabaseTypes.GetByNameIgnoresCase | src/main/java/io/github/lijinhong11/mdatabase/enums/DatabaseType.java:9-16 | two names equal ignoring case look up the same constant, or both none |
| DatabaseTypes.GetByNameLowerCase | src/main/java/io/github/lijinhong11/mdatabase/enums/DatabaseType.java:9-16 | the lower-case spelling of a constant's name finds that constant |
| Sql.ValidateAll | src/main/java/io/github/lijinhong11/mdatabase/sql/sentence/CreateIndexSQL.java:36-42 | validating a list of names succeeds exactly when every name is an identifier |
| Sql.ValidPrefix | src/main/java/io/github/lijinhong11/mdatabase/sql/sentence/CreateIndexSQL.java:36-42 | the number of leading names that pass validateIdentifier: all of them before it, and the one at it fails |
| Sql.ValidateAllAtPrefix | src/main/java/io/github/lijinhong11/mdatabase/sql/sentence/CreateIndexSQL.java:36-42 | the loop reports the first name outside the valid prefix, and succeeds when the prefix is the whole list |
| DropSql.DropKinds | src/main/java/io/github/lijinhong11/mdatabase/sql/sentence/DropSQL.java:58-85 | getSql fails exactly when no kind was chosen; a table drop ignores the index's table; an index drop with a table ends with ` ON t` after the name |
| DropSql.DropLayout | src/main/java/io/github/lijinhong11/mdatabase/sql/sentence/DropSQL.java:71-97 | each kind renders `DROP TABLE `, `DROP INDEX ` or `DROP VIEW ` (the first flag set), the IF EXISTS clause, then the name; only an index drop goes on with ` ON t`, so table and view drops ignore fromTable |
| DropSql.DropIfExistsPlacement | src/main/java/io/github/lijinhong11/mdatabase/sql/sentence/DropSQL.java:71-97 | with a valid name, `IF EXISTS ` directly follows the DROP head exactly when ifExists was called |
| DropSql.IfExistsAfterHead | src/main/java/io/github/lijinhong11/mdatabase/sql/sentence/DropSQL.java:93-97 | on the parts of a drop, `IF EXISTS ` follows the head exactly when the clause was appended |
| DropSql.NotIfExists | src/main/java/io/github/lijinhong11/mdatabase/sql/sentence/DropSQL.java:71-85 | an identifier or `null`, followed by nothing or ` ON t`, never begins with `IF EXISTS ` |
| DropSql.FailedNameStillDrops | src/main/java/io/github/lijinhong11/mdatabase/sql/sentence/DropSQL.java:27-32 | table(name) sets the kind before validating, so a refused name still renders `DROP TABLE null` (with IF EXISTS when set) |
| DropSql.DropBuildsPlain | src/main/java/io/github/lijinhong11/mdatabase/sql/sentence/SQL.java:124-140 | a drop of validated names holds no placeholder, so the inherited build prepares it and binds nothing |
| DropSql.DropSQL.constructor | src/main/java/io/github/lijinhong11/mdatabase/sql/sentence/DropSQL.java:13-14 | a new builder has no name, no kind, no flag and no table |
| DropSql.DropSQL.Name | src/main/java/io/github/lijinhong11/mdatabase/sql/sentence/DropSQL.java:16-20 | the name is stored only when it is an identifier; nothing else changes |
| DropSql.DropSQL.IfExists | src/main/java/io/github/lijinhong11/mdatabase/sql/sentence/DropSQL.java:22-25 | sets IF EXISTS; nothing else changes |
| DropSql.DropSQL.Table | src/main/java/io/github/lijinhong11/mdatabase/sql/sentence/DropSQL.java:27-32 | selects the table kind, whether or not the name passes, then stores the name only when it is an identifier |
| DropSql.DropSQL.Index | src/main/java/io/github/lijinhong11/mdatabase/sql/sentence/DropSQL.java:34-39 | selects the index kind, whether or not the name passes, then stores the name only when it is an identifier |
| DropSql.DropSQL.View | src/main/java/io/github/lijinhong11/mdatabase/sql/sentence/DropSQL.java:41-46 | selects the view kind, whether or not the name passes, then stores the name only when it is an identifier |
| DropSql.DropSQL.FromTable | src/main/java/io/github/lijinhong11/mdatabase/sql/sentence/DropSQL.java:48-52 | the ON table is stored only when it is an identifier; nothing else changes |
| DropSql.DropSQL.GetSql | src/main/java/io/github/lijinhong11/mdatabase/sql/sentence/DropSQL.java:54-97 | returns DropText of the builder's state for any dialect |
| DropSql.DropSQL.Build | src/main/java/io/github/lijinhong11/mdatabase/sql/sentence/SQL.java:124-140 | the inherited build on getSql's text with no parameters, or getSql's error |
| DropSql.NewDrop | src/main/java/io/github/lijinhong11/mdatabase/sql/sentence/SQL.java:67-69 | SQL.drop() returns a fresh empty builder |
| CreateIndexSql.IndexChecks | src/main/java/io/github/lijinhong11/mdatabase/sql/sentence/CreateIndexSQL.java:55-64 | getSql succeeds exactly with a name, a table and a column; the failing check is reported in the order name, table, columns |
| CreateIndexSql.IndexShape | src/main/java/io/github/lijinhong11/mdatabase/sql/sentence/CreateIndexSQL.java:66-81 | the text starts CREATE UNIQUE INDEX exactly when unique was requested; IF NOT EXISTS is dropped on MySQL and MariaDB; the head, the clause and `name ON t (c, ...)` follow each other |
| CreateIndexSql.IndexHasNoPlaceholder | src/main/java/io/github/lijinhong11/mdatabase/sql/sentence/CreateIndexSQL.java:86-90 | validated names leave no '?' in the text, so preparing it as it is agrees with the inherited build |
| CreateIndexSql.FixedTextFree | src/main/java/io/github/lijinhong11/mdatabase/sql/sentence/CreateIndexSQL.java:68-78 | the keywords around the names hold no placeholder |
| CreateIndexSql.CreateIndexSQL.constructor | src/main/java/io/github/lijinhong11/mdatabase/sql/sentence/CreateIndexSQL.java:15-16 | a new builder has no columns, no names and neither flag |
| CreateIndexSql.CreateIndexSQL.Index | src/main/java/io/github/lijinhong11/mdatabase/sql/sentence/CreateIndexSQL.java:18-22 | the index name is stored only when it is an identifier; nothing else changes |
| CreateIndexSql.CreateIndexSQL.On | src/main/java/io/github/lijinhong11/mdatabase/sql/sentence/CreateIndexSQL.java:24-28 | the table is stored only when it is an identifier; nothing else changes |
| CreateIndexSql.CreateIndexSQL.Column | src/main/java/io/github/lijinhong11/mdatabase/sql/sentence/CreateIndexSQL.java:30-34 | appends the column when it is an identifier; nothing else changes |
| CreateIndexSql.CreateIndexSQL.Columns | src/main/java/io/github/lijinhong11/mdatabase/sql/sentence/CreateIndexSQL.java:36-42 | reports the first non-identifier exactly as ValidateAll does, and leaves the names before it appended in order |
| CreateIndexSql.CreateIndexSQL.Unique | src/main/java/io/github/lijinhong11/mdatabase/sql/sentence/CreateIndexSQL.java:44-47 | sets UNIQUE; nothing else changes |
| CreateIndexSql.CreateIndexSQL.IfNotExists | src/main/java/io/github/lijinhong11/mdatabase/sql/sentence/CreateIndexSQL.java:49-52 | sets IF NOT EXISTS; nothing else changes |
| CreateIndexSql.CreateIndexSQL.GetSql | src/main/java/io/github/lijinhong11/mdatabase/sql/sentence/CreateIndexSQL.java:54-84 | returns IndexText of the builder's state and dialect |
| CreateIndexSql.CreateIndexSQL.Build | src/main/java/io/github/lijinhong11/mdatabase/sql/sentence/CreateIndexSQL.java:86-90 | prepares getSql's text with nothing bound, or propagates getSql's error |
| CreateIndexSql.NewCreateIndex | src/main/java/io/github/lijinhong11/mdatabase/sql/sentence/SQL.java:94-96 | SQL.createIndex() returns a fresh empty builder |
| AlterTableSql.AddColumnCall | src/main/java/io/github/lijinhong11/mdatabase/sql/sentence/AlterTableSQL.java:29-35 | addColumn succeeds exactly when the column is an identifier, storing the column and the position as given (never validated) |
| AlterTableSql.DropColumnCall | src/main/java/io/github/lijinhong11/mdatabase/sql/sentence/AlterTableSQL.java:37-41 | dropColumn succeeds exactly when the column is an identifier |
| AlterTableSql.ModifyColumnCall | src/main/java/io/github/lijinhong11/mdatabase/sql/sentence/AlterTableSQL.java:51-62 | modifyColumn needs an identifier column, and a bare position (neither FIRST nor AFTER ...) must be an identifier too and is stored as `AFTER name`; FIRST and AFTER ... are stored as given; a refused column is reported first, otherwise the refused position |
| AlterTableSql.RenameColumnCall | src/main/java/io/github/lijinhong11/mdatabase/sql/sentence/AlterTableSQL.java:76-82 | renameColumn succeeds exactly when both names are identifiers, reporting the old name first |
| AlterTableSql.ColumnListCall | src/main/java/io/github/lijinhong11/mdatabase/sql/sentence/AlterTableSQL.java:84-91 | addPrimaryKey and addUnique succeed exactly when every name is an identifier and store the names joined by ", " |
| AlterTableSql.ForeignKeyCall | src/main/java/io/github/lijinhong11/mdatabase/sql/sentence/AlterTableSQL.java:102-115 | addForeignKey validates the column, the referenced table, the referenced column and a present constraint name, in that order, reporting the first failure, and stores the encoded reference |
| AlterTableSql.NamedCall | src/main/java/io/github/lijinhong11/mdatabase/sql/sentence/AlterTableSQL.java:117-142 | dropForeignKey, dropUnique and renameTable succeed exactly when the name is an identifier and store it |
| AlterTableSql.PositionForms | src/main/java/io/github/lijinhong11/mdatabase/sql/sentence/AlterTableSQL.java:187-195 | on MySQL and MariaDB FIRST renders ` FIRST`, `AFTER c` renders ` AFTER c` once c is an identifier and fails naming c otherwise, and any other position renders nothing |
| AlterTableSql.DecodeReference | src/main/java/io/github/lijinhong11/mdatabase/sql/sentence/AlterTableSQL.java:281-287 | a foreign key's extraInfo without ':' is the reference itself with no constraint name; a null one yields neither |
| AlterTableSql.StatementsInOrder | src/main/java/io/github/lijinhong11/mdatabase/sql/sentence/AlterTableSQL.java:160-166 | the loop yields statements exactly when every operation renders, one `ALTER TABLE t clause` per operation in queue order; otherwise the error of the first operation that fails |
| AlterTableSql.StatementsStep | src/main/java/io/github/lijinhong11/mdatabase/sql/sentence/AlterTableSQL.java:160-166 | one more loop iteration appends that operation's statement, or throws its error, or the earlier error stays |
| AlterTableSql.StatementsPrefixError | src/main/java/io/github/lijinhong11/mdatabase/sql/sentence/AlterTableSQL.java:160-166 | once an operation has failed, the operations after it change nothing |
| AlterTableSql.AlterChecks | src/main/java/io/github/lijinhong11/mdatabase/sql/sentence/AlterTableSQL.java:145-158 | getSql fails without a table, then without operations, then on SQLite with more than one operation, with those messages |
| AlterTableSql.AlterStatementsInOrder | src/main/java/io/github/lijinhong11/mdatabase/sql/sentence/AlterTableSQL.java:160-168 | a rendered ALTER is exactly the operations' statements in insertion order, each prefixed `ALTER TABLE t `, joined by "; ", and rendering succeeds exactly when every operation renders |
| AlterTableSql.AlterFirstError | src/main/java/io/github/lijinhong11/mdatabase/sql/sentence/AlterTableSQL.java:160-168 | a failed ALTER reports the error of the first operation that fails, all earlier ones rendering |
| AlterTableSql.SqliteOperations | src/main/java/io/github/lijinhong11/mdatabase/sql/sentence/AlterTableSQL.java:171-317 | SQLite refuses exactly DROP COLUMN, MODIFY COLUMN, the three constraint drops and a positioned ADD COLUMN, always with UnsupportedOperationException |
| AlterTableSql.ConstraintDrops | src/main/java/io/github/lijinhong11/mdatabase/sql/sentence/AlterTableSQL.java:294-316 | PostgreSQL drops a foreign key or a unique constraint with DROP CONSTRAINT; MySQL and MariaDB use DROP FOREIGN KEY and DROP INDEX |
| AlterTableSql.AddPositioningRefused | src/main/java/io/github/lijinhong11/mdatabase/sql/sentence/AlterTableSQL.java:173-179 | FIRST / AFTER positioning in ADD COLUMN is refused on PostgreSQL and SQLite, naming the dialect |
| AlterTableSql.ModifyPositioningRefused | src/main/java/io/github/lijinhong11/mdatabase/sql/sentence/AlterTableSQL.java:203-211 | FIRST / AFTER positioning in MODIFY COLUMN is refused on PostgreSQL; SQLite refuses MODIFY COLUMN before the position is looked at |
| AlterTableSql.AfterPositionOnMysql | src/main/java/io/github/lijinhong11/mdatabase/sql/sentence/AlterTableSQL.java:187-195 | on MySQL and MariaDB an added or modified column with position `AFTER c` ends with ` AFTER c` when c is an identifier and fails naming c otherwise |
| AlterTableSql.FirstPositionOnMysql | src/main/java/io/github/lijinhong11/mdatabase/sql/sentence/AlterTableSQL.java:186-188 | on MySQL and MariaDB an added or modified column with position FIRST renders and ends with ` FIRST` |
| AlterTableSql.BarePositionIgnoredOnAdd | src/main/java/io/github/lijinhong11/mdatabase/sql/sentence/AlterTableSQL.java:29-35 | addColumn keeps a bare position, and MySQL and MariaDB then render no position at all |
| AlterTableSql.PostgresClausesShape | src/main/java/io/github/lijinhong11/mdatabase/sql/sentence/AlterTableSQL.java:212-225 | the PostgreSQL MODIFY clauses are TYPE, SET NOT NULL and DROP DEFAULT (empty) or SET DEFAULT, each present exactly when that change was asked for, in that order |
| AlterTableSql.PostgresModify | src/main/java/io/github/lijinhong11/mdatabase/sql/sentence/AlterTableSQL.java:207-230 | PostgreSQL MODIFY fails exactly when no change was asked for, with that IllegalStateException; otherwise it is the clauses joined by ", " |
| AlterTableSql.RenameColumnByDialect | src/main/java/io/github/lijinhong11/mdatabase/sql/sentence/AlterTableSQL.java:253-267 | RENAME COLUMN a TO b on SQLite and PostgreSQL; CHANGE COLUMN a b type on MySQL and MariaDB, which refuse the rename without a data type |
| AlterTableSql.ReferenceRoundTrip | src/main/java/io/github/lijinhong11/mdatabase/sql/sentence/AlterTableSQL.java:110-112 | decoding what addForeignKey stores gives back the constraint name and `table(column)`: validated names hold no ':' |
| AlterTableSql.ForeignKeyRendering | src/main/java/io/github/lijinhong11/mdatabase/sql/sentence/AlterTableSQL.java:280-293 | a foreign key renders `[ADD CONSTRAINT name ]FOREIGN KEY (c) REFERENCES t(rc)` on every dialect |
| AlterTableSql.ValidateEach | src/main/java/io/github/lijinhong11/mdatabase/sql/sentence/AlterTableSQL.java:85-87 | the validation loop of addPrimaryKey and addUnique reports exactly what ValidateAll does |
| AlterTableSql.AlterTableSQL.constructor | src/main/java/io/github/lijinhong11/mdatabase/sql/sentence/AlterTableSQL.java:12-13 | a new builder has no table and no operations |
| AlterTableSql.AlterTableSQL.Table | src/main/java/io/github/lijinhong11/mdatabase/sql/sentence/AlterTableSQL.java:15-19 | the table is stored only when it is an identifier; the queue stays |
| AlterTableSql.AlterTableSQL.Append | src/main/java/io/github/lijinhong11/mdatabase/sql/sentence/AlterTableSQL.java:32-33 | an accepted operation goes to the end of the queue; a refused one leaves it unchanged and returns the error |
| AlterTableSql.AlterTableSQL.AddColumn | src/main/java/io/github/lijinhong11/mdatabase/sql/sentence/AlterTableSQL.java:21-35 | appends AddColumnCall's operation or returns its error with the queue unchanged |
| AlterTableSql.AlterTableSQL.DropColumn | src/main/java/io/github/lijinhong11/mdatabase/sql/sentence/AlterTableSQL.java:37-41 | appends DropColumnCall's operation or returns its error with the queue unchanged |
| AlterTableSql.AlterTableSQL.ModifyColumn | src/main/java/io/github/lijinhong11/mdatabase/sql/sentence/AlterTableSQL.java:43-62 | appends ModifyColumnCall's operation or returns its error with the queue unchanged |
| AlterTableSql.AlterTableSQL.MoveColumnFirst | src/main/java/io/github/lijinhong11/mdatabase/sql/sentence/AlterTableSQL.java:64-66 | modifyColumn with position FIRST and no other change |
| AlterTableSql.AlterTableSQL.MoveColumnAfter | src/main/java/io/github/lijinhong11/mdatabase/sql/sentence/AlterTableSQL.java:68-70 | modifyColumn with the other column as position and no other change |
| AlterTableSql.AlterTableSQL.RenameColumn | src/main/java/io/github/lijinhong11/mdatabase/sql/sentence/AlterTableSQL.java:72-82 | appends RenameColumnCall's operation or returns its error with the queue unchanged |
| AlterTableSql.AlterTableSQL.AddPrimaryKey | src/main/java/io/github/lijinhong11/mdatabase/sql/sentence/AlterTableSQL.java:84-91 | appends the joined column list or returns the first validation error with the queue unchanged |
| AlterTableSql.AlterTableSQL.DropPrimaryKey | src/main/java/io/github/lijinhong11/mdatabase/sql/sentence/AlterTableSQL.java:93-96 | always appends a DROP_PRIMARY_KEY operation |
| AlterTableSql.AlterTableSQL.AddForeignKey | src/main/java/io/github/lijinhong11/mdatabase/sql/sentence/AlterTableSQL.java:98-115 | appends ForeignKeyCall's operation or returns its error with the queue unchanged |
| AlterTableSql.AlterTableSQL.DropForeignKey | src/main/java/io/github/lijinhong11/mdatabase/sql/sentence/AlterTableSQL.java:117-121 | appends the named drop or returns the validation error with the queue unchanged |
| AlterTableSql.AlterTableSQL.AddUnique | src/main/java/io/github/lijinhong11/mdatabase/sql/sentence/AlterTableSQL.java:123-130 | appends the joined column list or returns the first validation error with the queue unchanged |
| AlterTableSql.AlterTableSQL.DropUnique | src/main/java/io/github/lijinhong11/mdatabase/sql/sentence/AlterTableSQL.java:132-136 | appends the named drop or returns the validation error with the queue unchanged |
| AlterTableSql.AlterTableSQL.RenameTable | src/main/java/io/github/lijinhong11/mdatabase/sql/sentence/AlterTableSQL.java:138-142 | appends the rename or returns the validation error with the queue unchanged |
| AlterTableSql.AlterTableSQL.GetSql | src/main/java/io/github/lijinhong11/mdatabase/sql/sentence/AlterTableSQL.java:144-169 | returns AlterText of the table, the queue and the dialect |
| AlterTableSql.AlterTableSQL.Build | src/main/java/io/github/lijinhong11/mdatabase/sql/sentence/AlterTableSQL.java:320-324 | prepares getSql's text with nothing bound, or propagates getSql's error |
| AlterTableSql.NewAlterTable | src/main/java/io/github/lijinhong11/mdatabase/sql/sentence/SQL.java:85-87 | SQL.alterTable() returns a fresh empty builder |
| Serialization.SqlTypeFor | src/main/java/io/github/lijinhong11/mdatabase/serialization/ObjectSerializer.java:200-229 | the built-in table decides first, then the registered converter's getSqlType, and otherwise an IllegalArgumentException naming the class; it fails exactly when neither applies |
| Serialization.BuiltinsBeforeConverters | src/main/java/io/github/lijinhong11/mdatabase/serialization/ObjectSerializer.java:200-220 | no registered converter overrides a built-in row, and primitive and boxed classes share theirs |
| Serialization.NoBuiltinRow | src/main/java/io/github/lijinhong11/mdatabase/serialization/ObjectSerializer.java:200-229 | Time, the LOB classes and scalar byte have no built-in row, so without a converter they are refused |
| Serialization.ConvertBackAs | src/main/java/io/github/lijinhong11/mdatabase/serialization/ObjectSerializer.java:76-90 | null stays null, an object of an enum class is stored as the text its toString returns, and an object of a class with no converter is unchanged |
| Serialization.ConvertBackCases | src/main/java/io/github/lijinhong11/mdatabase/serialization/ObjectSerializer.java:68-90 | an enum constant without a class body is stored as its toString text whatever converter is registered, which is its name when the enum keeps Enum's toString; a constant with a class body is of an anonymous non-enum class and, without a converter for it, is stored unchanged; a UUID under the UUID converter as its text; an object with no converter unchanged; null as null |
| Serialization.EnumStoreThenRead | src/main/java/io/github/lijinhong11/mdatabase/serialization/ObjectSerializer.java:164-166 | reading a stored enum constant back through Enum.valueOf gives the constant exactly when it prints as its name; a toString that names no constant makes the read fail with that text |
| Serialization.ColumnName | src/main/java/io/github/lijinhong11/mdatabase/serialization/ObjectSerializer.java:119-133 | null exactly without @Column; the field's name for AUTO_NAMED; the explicit name otherwise |
| Serialization.NonFinal | src/main/java/io/github/lijinhong11/mdatabase/serialization/ObjectSerializer.java:179-182 | the kept fields are non-final fields of the class |
| Serialization.NonFinalAppend | src/main/java/io/github/lijinhong11/mdatabase/serialization/ObjectSerializer.java:179-182 | one more declared field is kept exactly when it is not final |
| Serialization.ScanCollectsNonFinal | src/main/java/io/github/lijinhong11/mdatabase/serialization/ObjectSerializer.java:177-198 | getAllFields returns exactly the non-final fields in declaration order, and fails exactly when a non-final field names a converter that cannot be created |
| Serialization.ScanErrorPersists | src/main/java/io/github/lijinhong11/mdatabase/serialization/ObjectSerializer.java:185-190 | once a converter cannot be created, the later fields change nothing |
| Serialization.ScanLastWriterWins | src/main/java/io/github/lijinhong11/mdatabase/serialization/ObjectSerializer.java:184-191 | after getAllFields each class maps to the converter of the last field of that class that carries @Converter, and every other class keeps its converter |
| Serialization.LastConverterFound | src/main/java/io/github/lijinhong11/mdatabase/serialization/ObjectSerializer.java:184-186 | a field that registers a converter registers it for its own class |
| Serialization.CachedFieldsStable | src/main/java/io/github/lijinhong11/mdatabase/serialization/ObjectSerializer.java:92-101 | the fields are computed once: a second getCachedFields returns the same list and leaves the registry as the first left it; the list is the cached one or the non-final fields |
| Serialization.ReadDispatch | src/main/java/io/github/lijinhong11/mdatabase/serialization/ObjectSerializer.java:135-175 | the typed getters come before the enum test and the converters; a missing column stays missing; an enum text that is not a constant fails; a class with none of these fails without touching the row |
| Serialization.PopulateOkIff | src/main/java/io/github/lijinhong11/mdatabase/serialization/ObjectSerializer.java:39-49 | the field loop succeeds exactly when no field's read fails other than by a missing column |
| Serialization.PopulateSettles | src/main/java/io/github/lijinhong11/mdatabase/serialization/ObjectSerializer.java:39-49 | after the loop each field holds its non-null read value or keeps its constructed value, and every other entry stays as constructed |
| Serialization.SetFieldStep | src/main/java/io/github/lijinhong11/mdatabase/serialization/ObjectSerializer.java:111-117 | setFieldValue sets the field to a non-null read value, leaves it for null or a missing column, and touches no other field |
| Serialization.KeepsSettled | src/main/java/io/github/lijinhong11/mdatabase/serialization/ObjectSerializer.java:111-117 | setting one field leaves a different field's value alone |
| Serialization.OneThenCached | src/main/java/io/github/lijinhong11/mdatabase/serialization/ObjectSerializer.java:36-54 | after a successful serializeOne the class's fields are cached, so a second one leaves the registry alone and, on the same row, repeats the result |
| Serialization.MultiOnePerRow | src/main/java/io/github/lijinhong11/mdatabase/serialization/ObjectSerializer.java:56-66 | serializeMulti yields one object per row in row order, each equal to serializeOne of that row with the fields and converters of the first |
| Serialization.PopulateErrorPersists | src/main/java/io/github/lijinhong11/mdatabase/serialization/ObjectSerializer.java:39-49 | once a field has failed, the later fields change nothing |
| Serialization.MultiErrorPersists | src/main/java/io/github/lijinhong11/mdatabase/serialization/ObjectSerializer.java:59-61 | once a row has failed, the later rows change nothing |
| Serialization.ObjectSerializer.constructor | src/main/java/io/github/lijinhong11/mdatabase/serialization/ObjectSerializer.java:28-30 | the static initialiser registers the UUID converter and caches no fields |
| Serialization.ObjectSerializer.RegisterConverter | src/main/java/io/github/lijinhong11/mdatabase/serialization/ObjectSerializer.java:32-34 | the class maps to the new converter, replacing any earlier one; the cache is untouched |
| Serialization.ObjectSerializer.GetAllFields | src/main/java/io/github/lijinhong11/mdatabase/serialization/ObjectSerializer.java:177-198 | the loop returns what ScanFields describes and registers the converters it describes; the cache is untouched |
| Serialization.ObjectSerializer.GetCachedFields | src/main/java/io/github/lijinhong11/mdatabase/serialization/ObjectSerializer.java:92-101 | returns the cached list, or computes it with getAllFields and caches it on success, as CachedFields describes |
| Serialization.ObjectSerializer.SerializeOne | src/main/java/io/github/lijinhong11/mdatabase/serialization/ObjectSerializer.java:36-54 | constructs the object, reads the cached fields and runs the field loop, wrapping every failure in CannotInstanceException, as One describes |
| Serialization.ObjectSerializer.SerializeMulti | src/main/java/io/github/lijinhong11/mdatabase/serialization/ObjectSerializer.java:56-66 | one serializeOne per row in cursor order, stopping at the first failure, as Multi describes |
| Serialization.NewObjectSerializer | src/main/java/io/github/lijinhong11/mdatabase/serialization/ObjectSerializer.java:23-30 | the static state at class initialisation |
| UuidConversion.Convert | src/main/java/io/github/lijinhong11/mdatabase/serialization/converters/UUIDConverter.java:8-15 | a String is parsed and accepted exactly in canonical UUID form; a UUID or null passes the cast; anything else fails the cast; every result is a UUID or null |
| UuidConversion.ConvertBack | src/main/java/io/github/lijinhong11/mdatabase/serialization/converters/UUIDConverter.java:17-24 | a UUID becomes its canonical text; anything else is returned unchanged |
| UuidConversion.StoreThenRead | src/main/java/io/github/lijinhong11/mdatabase/serialization/converters/UUIDConverter.java:8-24 | storing a UUID and reading it back gives the same UUID |
| UuidConversion.ReadThenStore | src/main/java/io/github/lijinhong11/mdatabase/serialization/converters/UUIDConverter.java:8-24 | reading stored text and storing it again gives that text in lower case |
| Uuids.ToString | src/main/java/io/github/lijinhong11/mdatabase/serialization/converters/UUIDConverter.java:20 | UUID.toString writes the canonical 8-4-4-4-12 hexadecimal form |
| Uuids.FromString | src/main/java/io/github/lijinhong11/mdatabase/serialization/converters/UUIDConverter.java:11 | UUID.fromString accepts exactly the canonical form, hex digits of either case |
| Uuids.FromStringToString | src/main/java/io/github/lijinhong11/mdatabase/serialization/converters/UUIDConverter.java:11-20 | parsing a UUID's text gives back the UUID |
| Uuids.ToStringFromString | src/main/java/io/github/lijinhong11/mdatabase/serialization/converters/UUIDConverter.java:11-20 | printing a parsed UUID gives the parsed text in lower case |
| Connection.TableName | src/main/java/io/github/lijinhong11/mdatabase/impl/AbstractSQLConnection.java:53-60 | a class without @Table, and one whose table name is blank, are refused with their own messages; otherwise the name is the @Table name |
| Connection.SelectQueries | src/main/java/io/github/lijinhong11/mdatabase/impl/AbstractSQLConnection.java:62-66 | both selects need the table check only; selectOne asks for every column with its condition and LIMIT 1, selectMulti for the same without a limit and with a WHERE only for a non-null condition |
| Connection.Flags | src/main/java/io/github/lijinhong11/mdatabase/impl/AbstractSQLConnection.java:141-155 | the calls after a column never declare another column |
| Connection.FlagCalls | src/main/java/io/github/lijinhong11/mdatabase/impl/AbstractSQLConnection.java:141-155 | the flag calls never declare a column |
| Connection.FlagCallsMembers | src/main/java/io/github/lijinhong11/mdatabase/impl/AbstractSQLConnection.java:141-155 | each of autoIncrement, primaryKey and notNull is called exactly when its flag is set, and defaultValue exactly with the given default |
| Connection.FieldCallsHead | src/main/java/io/github/lijinhong11/mdatabase/impl/AbstractSQLConnection.java:136-139 | a @Column field's calls open with column(name, sqlType) and hold no other column call |
| Connection.FieldCallsFlags | src/main/java/io/github/lijinhong11/mdatabase/impl/AbstractSQLConnection.java:141-155 | a column is auto-increment, primary key or NOT NULL exactly when its field asks for it, and gets a default exactly when the annotation's default is not blank |
| Connection.TableCallsOkIff | src/main/java/io/github/lijinhong11/mdatabase/impl/AbstractSQLConnection.java:130-158 | createTableByClass assembles its statement exactly when every @Column field's type has an SQL type |
| Connection.TableCallsColumns | src/main/java/io/github/lijinhong11/mdatabase/impl/AbstractSQLConnection.java:130-158 | the column calls are exactly one per @Column field, in field order, with its name and SQL type |
| Connection.FieldCallsColumn | src/main/java/io/github/lijinhong11/mdatabase/impl/AbstractSQLConnection.java:139 | one field contributes exactly one column call |
| Connection.ColumnFields | src/main/java/io/github/lijinhong11/mdatabase/impl/AbstractSQLConnection.java:131 | only @Column fields take part |
| Connection.ColumnsAppend | src/main/java/io/github/lijinhong11/mdatabase/impl/AbstractSQLConnection.java:130-158 | the column calls of two call lists are those of each, in order |
| Connection.NoColumns | src/main/java/io/github/lijinhong11/mdatabase/impl/AbstractSQLConnection.java:141-155 | a list of flag calls holds no column call |
| Connection.FillValues | src/main/java/io/github/lijinhong11/mdatabase/impl/AbstractSQLConnection.java:184-191 | a successful run of the value calls leaves a consistent column-to-value list with no WHERE |
| Connection.FillValuesOkIff | src/main/java/io/github/lijinhong11/mdatabase/impl/AbstractSQLConnection.java:184-191 | the value calls succeed exactly when every @Column field's column name is an identifier |
| Connection.FillValuesInFieldOrder | src/main/java/io/github/lijinhong11/mdatabase/impl/AbstractSQLConnection.java:184-191 | with distinct column names, the columns appear in field order, each with its field's stored value |
| Connection.PutNewColumn | src/main/java/io/github/lijinhong11/mdatabase/impl/AbstractSQLConnection.java:188 | value() with a new column appends its value at the end |
| Connection.KeyColumnsMembers | src/main/java/io/github/lijinhong11/mdatabase/impl/AbstractSQLConnection.java:193-198 | a name is a conflict key exactly when it is the column name of a @PrimaryKey @Column field |
| Connection.KeyColumnsEmpty | src/main/java/io/github/lijinhong11/mdatabase/impl/AbstractSQLConnection.java:203 | there are no conflict keys exactly when no @Column field is a primary key |
| Connection.InsertObjectBuilds | src/main/java/io/github/lijinhong11/mdatabase/impl/AbstractSQLConnection.java:178-214 | outside an SQLite or PostgreSQL upsert, once the table and columns are identifiers, the insert is built with the stored values bound in field order |
| Connection.UpsertConflictKeys | src/main/java/io/github/lijinhong11/mdatabase/impl/AbstractSQLConnection.java:202-208 | an SQLite or PostgreSQL upsert with no primary-key column is refused with the class's name; otherwise it asks for exactly the primary-key columns as conflict keys |
| Connection.SetEntriesMembers | src/main/java/io/github/lijinhong11/mdatabase/impl/AbstractSQLConnection.java:231-243 | a column is set exactly when it belongs to a @Column field that is not a @PrimaryKey, with that field's stored value |
| Connection.DeleteObjectBuilds | src/main/java/io/github/lijinhong11/mdatabase/impl/AbstractSQLConnection.java:265-271 | the delete is built exactly when the table name is an identifier and the condition is balanced; its text is DELETE FROM the table WHERE the condition |
| Connection.TableCheckFirst | src/main/java/io/github/lijinhong11/mdatabase/impl/AbstractSQLConnection.java:53-60 | on a failed @Table check every operation stops with that error, assembles nothing and registers no converter |
| Connection.SqlConnection.constructor | src/main/java/io/github/lijinhong11/mdatabase/impl/AbstractSQLConnection.java:24-32 | a connection of the given dialect |
| Connection.SqlConnection.SelectOne | src/main/java/io/github/lijinhong11/mdatabase/impl/AbstractSQLConnection.java:52-74 | the query SelectOneQuery describes, then serializeOne over the current row; on a failed table check the serializer is left alone |
| Connection.SqlConnection.SelectMulti | src/main/java/io/github/lijinhong11/mdatabase/impl/AbstractSQLConnection.java:82-106 | the query SelectMultiQuery describes, then serializeMulti over the rows; on a failed table check the serializer is left alone |
| Connection.SqlConnection.CreateTableByClass | src/main/java/io/github/lijinhong11/mdatabase/impl/AbstractSQLConnection.java:116-165 | the statement and registered converters CreateTableSpec describes; the field cache is untouched |
| Connection.SqlConnection.InsertObject | src/main/java/io/github/lijinhong11/mdatabase/impl/AbstractSQLConnection.java:168-215 | the outcome and registered converters InsertObjectSpec describes; the field cache is untouched |
| Connection.SqlConnection.InsertFields | src/main/java/io/github/lijinhong11/mdatabase/impl/AbstractSQLConnection.java:180-214 | once the table and fields are known, the outcome InsertStatement describes |
| Connection.SqlConnection.UpdateObject | src/main/java/io/github/lijinhong11/mdatabase/impl/AbstractSQLConnection.java:218-252 | the calls and registered converters UpdateObjectSpec describes; the field cache is untouched |
| Connection.SqlConnection.DeleteObject | src/main/java/io/github/lijinhong11/mdatabase/impl/AbstractSQLConnection.java:255-272 | the statement DeleteObjectSpec describes |
| Connection.AddColumnValues | src/main/java/io/github/lijinhong11/mdatabase/impl/AbstractSQLConnection.java:184-200 | the loop leaves the builder holding FillValues' values, fails exactly when FillValues does, and collects KeyColumns' conflict keys only when they are needed |
| Connection.FillValuesStep | src/main/java/io/github/lijinhong11/mdatabase/impl/AbstractSQLConnection.java:184-191 | one more field: a field without @Column changes nothing, a @Column field puts its column |
| Connection.KeyColumnsStep | src/main/java/io/github/lijinhong11/mdatabase/impl/AbstractSQLConnection.java:193-198 | one more field adds its column name exactly when it is a @PrimaryKey @Column field |
| Connection.TableCallsErrorPersists | src/main/java/io/github/lijinhong11/mdatabase/impl/AbstractSQLConnection.java:136 | once getSqlType has thrown, the later fields change nothing |
| Connection.FillValuesErrorPersists | src/main/java/io/github/lijinhong11/mdatabase/impl/AbstractSQLConnection.java:188 | once value() has thrown, the later fields change nothing |

## Left out

- JDBC I/O: `execute`, `query`, `ping`, `close`, `getConnection` and the connection-pool classes are not modelled. A built statement is a record of its text and bound positions, and the connection operations end with what they would execute.
- The debug logger and `setDebug`: logging has no effect on the result.
- The typed result-set getters (double, float, dates, LOBs, BigDecimal and the rest): the driver's conversions are not modelled. The row holds the value the getter returns; only the order in which getValueFromResultSet chooses a getter is modelled.
- SQLExceptions from the driver: a getter's "no such column" is the only one modelled, as a missing column. The exception from `set.next()` in serializeMulti is not modelled either.
- The SerializationException wrapper around a failed read: a failed read goes straight to CannotInstanceException with the underlying cause.
- The exception getAllFields throws when a converter cannot be created: it is modelled as InstantiationFailed naming the converter class.
- selectOne does not advance the cursor: it reads the current row, which is a parameter.
- Reflection: getDeclaredFields, setAccessible, newInstance and annotation lookup are replaced by descriptors. The descriptor gives each field's name, type, modifiers and annotations, and each class's @Table name, constructor and initial field values. The field cache is keyed by the class name.
- ConcurrentHashMap: its thread safety is not modelled; the static maps are sequential maps.
- The regular-expression engine: the identifier language `[a-zA-Z_][a-zA-Z0-9_]*` is a predicate on characters.
- SelectSQL, UpdateSQL, CreateTableSQL, AppendableCondition, the annotations and IllegalIdentifierException are not part of this model. The connection operations produce records of the calls made on those builders. Conditions combined with `and`/`or` enter as external conditions carrying their text and parameters.
- InsertSQL.conflictKeys is called by insertObject but is not part of this model: the call and its keys are recorded, not rendered.
- The overloads that only supply default arguments, such as `selectMulti(clazz)` and `insertObject(clazz, object)`: they are modelled through their fullest form.
- Null string arguments where the code does not test for null: they are not modelled.
- Unicode whitespace and case folding: `isBlank`, `trim` and `equalsIgnoreCase` are modelled on ASCII and the C0 controls only.
- UUID.fromString's lenient forms, such as short groups: only the canonical 36-character text of section 3 of RFC 4122 is accepted.
- ObjectConverter and custom converters: their `convert`, `convertBack` and `getSqlType` are parameters, and only the UUID converter is modelled in full.
- toString: what an object's class returns from toString is a parameter, for enum constants too, since an enum may override it. Which enum constants have a class body is part of the enum's description.
