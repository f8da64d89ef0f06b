/** ObjectSerializer: the registry of converters and mapped fields, the
    host-type to SQL-type table, the host-to-stored conversion and the
    population of objects from result rows. Reflection is replaced by
    explicit class and field descriptors. */
module Serialization {
  import opened Wrappers
  import opened Text
  import opened Values
  import opened Errors
  import UuidConversion

  /** The name element of @Column: the AUTO_NAMED marker or an explicit name. */
  datatype ColumnNaming = AutoNamed | Named(name: string)

  /** A @Column annotation as the core reads it. */
  datatype ColumnAnnotation = ColumnAnnotation(naming: ColumnNaming, nullable: bool, defaultValue: string)

  /** An ObjectConverter: the UUID converter, or a converter class outside
      this model known by its class name and the SQL type it reports. */
  datatype Converter = UuidConverter | Custom(className: string, sqlType: string)

  /** A @Converter annotation: the converter class and whether creating it
      through its no-argument constructor succeeds. */
  datatype ConverterAnnotation = ConverterAnnotation(converter: Converter, instantiable: bool)

  /** A declared field: what getDeclaredFields, getModifiers and the
      annotation lookups report about it. */
  datatype Field = Field(
    name: string,
    fieldType: HostType,
    isFinal: bool,
    column: Option<ColumnAnnotation>,
    primaryKey: bool,
    autoIncrement: bool,
    converterAnnotation: Option<ConverterAnnotation>)

  /** A mapped class: its name, its @Table name when annotated, its
      declared fields in declaration order, whether its no-argument
      constructor succeeds, and the field values that constructor leaves. */
  datatype ClassDescriptor = ClassDescriptor(
    name: string,
    table: Option<string>,
    declaredFields: seq<Field>,
    constructible: bool,
    initial: map<string, Value>)

  /** What the code outside this model does: the custom converters' convert
      and convertBack, keyed by converter class name, and toString. */
  datatype ForeignCode = ForeignCode(
    convert: (string, Value) -> Result<Value>,
    convertBack: (string, Value) -> Value,
    toString: Value -> string)

  /** The current row of a result set: for every column that exists, the
      value the getter matching the field's type returns for it. */
  type Row = map<string, Value>

  /** A populated object: field name to value. */
  type Instance = map<string, Value>

  function ConverterClassName(c: Converter): string
  {
    match c
    case UuidConverter => "io.github.lijinhong11.mdatabase.serialization.converters.UUIDConverter"
    case Custom(className, _) => className
  }

  function ConverterSqlType(c: Converter): string
  {
    match c
    case UuidConverter => UuidConversion.SqlType
    case Custom(_, sqlType) => sqlType
  }

  function ApplyConvert(c: Converter, o: Value, foreign: ForeignCode): Result<Value>
  {
    match c
    case UuidConverter => UuidConversion.Convert(o)
    case Custom(className, _) => foreign.convert(className, o)
  }

  function ApplyConvertBack(c: Converter, t: Value, foreign: ForeignCode): Value
  {
    match c
    case UuidConverter => UuidConversion.ConvertBack(t)
    case Custom(className, _) => foreign.convertBack(className, t)
  }

  // ---------------------------------------------------------------------
  // getSqlType

  /** The built-in rows of getSqlType's table. */
  function BuiltinSqlType(t: HostType): Option<string>
  {
    match t
    case StringType => Some("TEXT")
    case IntType(_) => Some("INTEGER")
    case LongType(_) => Some("BIGINT")
    case BooleanType(_) => Some("BOOLEAN")
    case DoubleType(_) => Some("DOUBLE")
    case FloatType(_) => Some("FLOAT")
    case SqlDateType => Some("DATETIME")
    case TimestampType => Some("DATETIME")
    case BigDecimalType => Some("DECIMAL(18,6)")
    case EnumClass(_) => Some("VARCHAR(100)")
    case ArrayType(_) => Some("BLOB")
    case _ => None
  }

  /** getSqlType(javaType): the built-in table, then the registered
      converter, then IllegalArgumentException. */
  function SqlTypeFor(t: HostType, converters: map<HostType, Converter>): (r: Result<string>)
    ensures BuiltinSqlType(t).Some? ==> r == Ok(BuiltinSqlType(t).value)
    ensures BuiltinSqlType(t).None? && t in converters ==> r == Ok(ConverterSqlType(converters[t]))
    ensures r.Err? <==> BuiltinSqlType(t).None? && t !in converters
    ensures r.Err? ==> r.error == UnsupportedSqlType(t)
  {
    if BuiltinSqlType(t).Some? then Ok(BuiltinSqlType(t).value)
    else if t in converters then Ok(ConverterSqlType(converters[t]))
    else Err(UnsupportedSqlType(t))
  }

  /** No converter overrides a built-in row, and the primitive and boxed
      classes share theirs. */
  lemma BuiltinsBeforeConverters(t: HostType, c1: map<HostType, Converter>, c2: map<HostType, Converter>)
    requires BuiltinSqlType(t).Some?
    ensures SqlTypeFor(t, c1) == SqlTypeFor(t, c2)
    ensures t.IntType? ==> SqlTypeFor(t, c1) == Ok("INTEGER") == SqlTypeFor(IntType(!t.boxed), c2)
    ensures t.LongType? ==> SqlTypeFor(t, c1) == Ok("BIGINT") == SqlTypeFor(LongType(!t.boxed), c2)
  {
  }

  /** Time, the LOB classes and byte have no built-in row: they need a
      converter. */
  lemma NoBuiltinRow(t: HostType)
    requires t == TimeType || t == BlobType || t == ClobType || t == NClobType || t.ByteType?
    ensures SqlTypeFor(t, map[]) == Err(UnsupportedSqlType(t))
  {
  }

  // ---------------------------------------------------------------------
  // convertBack

  /** obj.toString() where clazz is an enum class. An enum may override
      toString, so the text is whatever the object's class returns; only
      Enum's own toString is bound to give the constant's name. */
  function EnumText(obj: Value, foreign: ForeignCode): string
  {
    foreign.toString(obj)
  }

  /** The enum does not override toString: a constant prints as its name. */
  predicate PrintsName(obj: Value, foreign: ForeignCode)
    requires obj.EnumConst?
  {
    foreign.toString(obj) == obj.name
  }

  /** convertBack(obj, clazz): null stays null, an enum class gives the
      text, a registered converter converts, anything else is unchanged. */
  function ConvertBackAs(obj: Value, clazz: HostType, converters: map<HostType, Converter>, foreign: ForeignCode): (r: Value)
    ensures obj.Null? ==> r == Null
    ensures !obj.Null? && clazz.EnumClass? ==> r == Str(EnumText(obj, foreign))
    ensures !obj.Null? && !clazz.EnumClass? && clazz !in converters ==> r == obj
  {
    if obj.Null? then Null
    else if clazz.EnumClass? then Str(EnumText(obj, foreign))
    else if clazz in converters then ApplyConvertBack(converters[clazz], obj, foreign)
    else obj
  }

  /** convertBack(obj): the one-argument form, with the object's own class. */
  function ConvertBackValue(obj: Value, converters: map<HostType, Converter>, foreign: ForeignCode): Value
  {
    if obj.Null? then Null else ConvertBackAs(obj, ClassOf(obj), converters, foreign)
  }

  /** A constant without a class body is stored as its toString text,
      whatever converter is registered for its class; a constant with a
      class body is not of an enum class and, with no converter for its
      subclass, is stored unchanged; a UUID under the UUID converter is
      stored as its text; an object with no converter unchanged. */
  lemma ConvertBackCases(obj: Value, converters: map<HostType, Converter>, foreign: ForeignCode)
    ensures obj.EnumConst? && obj.name !in obj.enumType.withBody ==>
      ConvertBackValue(obj, converters, foreign) == Str(foreign.toString(obj))
    ensures obj.EnumConst? && obj.name !in obj.enumType.withBody && PrintsName(obj, foreign) ==>
      ConvertBackValue(obj, converters, foreign) == Str(obj.name)
    ensures obj.EnumConst? && obj.name in obj.enumType.withBody && ClassOf(obj) !in converters ==>
      ConvertBackValue(obj, converters, foreign) == obj
    ensures obj.UuidObj? && UuidType in converters && converters[UuidType] == UuidConverter ==>
      ConvertBackValue(obj, converters, foreign) == Str(Uuids.ToString(obj.uuid))
    ensures !obj.Null? && !ClassOf(obj).EnumClass? && ClassOf(obj) !in converters ==>
      ConvertBackValue(obj, converters, foreign) == obj
    ensures obj.Null? ==> ConvertBackValue(obj, converters, foreign) == Null
  {
  }

  // ---------------------------------------------------------------------
  // getColumnName

  /** getColumnName(field): the field name for AUTO_NAMED, the explicit
      name otherwise, and null without @Column. */
  function ColumnName(f: Field): (r: Option<string>)
    ensures r.None? <==> f.column.None?
    ensures f.column.Some? && f.column.value.naming.AutoNamed? ==> r == Some(f.name)
    ensures f.column.Some? && f.column.value.naming.Named? ==> r == Some(f.column.value.naming.name)
  {
    if f.column.None? then None
    else match f.column.value.naming
      case AutoNamed => Some(f.name)
      case Named(n) => Some(n)
  }

  // ---------------------------------------------------------------------
  // getAllFields

  /** The static maps CONVERTERS and FIELD_CACHE (the cache keyed by class
      name). */
  datatype Registry = Registry(converters: map<HostType, Converter>, fieldCache: map<string, seq<Field>>)

  /** The fields getAllFields collects, after the fields so far, and the
      converters it has registered. */
  datatype Scan = Scan(converters: map<HostType, Converter>, outcome: Result<seq<Field>>)

  /** One turn of getAllFields' loop. */
  function ScanStep(s: Scan, f: Field): Scan
  {
    if s.outcome.Err? || f.isFinal then s
    else if f.converterAnnotation.Some? then
      if f.converterAnnotation.value.instantiable then
        Scan(s.converters[f.fieldType := f.converterAnnotation.value.converter], Ok(s.outcome.value + [f]))
      else Scan(s.converters, Err(InstantiationFailed(ConverterClassName(f.converterAnnotation.value.converter))))
    else Scan(s.converters, Ok(s.outcome.value + [f]))
  }

  /** getAllFields over the declared fields, starting from the converters. */
  function ScanFields(converters: map<HostType, Converter>, fields: seq<Field>): Scan
    decreases |fields|
  {
    if |fields| == 0 then Scan(converters, Ok([]))
    else ScanStep(ScanFields(converters, fields[..|fields| - 1]), fields[|fields| - 1])
  }

  /** The non-final fields, in declaration order. */
  function NonFinal(fields: seq<Field>): (r: seq<Field>)
    ensures forall i :: 0 <= i < |r| ==> r[i] in fields && !r[i].isFinal
    decreases |fields|
  {
    if |fields| == 0 then []
    else if fields[0].isFinal then NonFinal(fields[1..])
    else [fields[0]] + NonFinal(fields[1..])
  }

  /** A field whose @Converter getAllFields would register. */
  predicate Registers(f: Field)
  {
    !f.isFinal && f.converterAnnotation.Some?
  }

  predicate Instantiable(f: Field)
  {
    Registers(f) ==> f.converterAnnotation.value.instantiable
  }

  /** The converter the last field of type t with a @Converter names, if
      any field of that type has one: a search from the end. */
  function LastConverter(fields: seq<Field>, t: HostType): Option<Converter>
    decreases |fields|
  {
    if |fields| == 0 then None
    else
      var f := fields[|fields| - 1];
      if Registers(f) && f.fieldType == t then Some(f.converterAnnotation.value.converter)
      else LastConverter(fields[..|fields| - 1], t)
  }

  lemma NonFinalAppend(fields: seq<Field>, f: Field)
    ensures NonFinal(fields + [f]) == NonFinal(fields) + (if f.isFinal then [] else [f])
    decreases |fields|
  {
    if |fields| == 0 {
      assert fields + [f] == [f];
    } else {
      assert (fields + [f])[1..] == fields[1..] + [f];
      NonFinalAppend(fields[1..], f);
    }
  }

  /** getAllFields returns exactly the non-final fields in declaration order,
      and fails exactly when a non-final field names a converter that cannot
      be created. */
  lemma {:induction false} ScanCollectsNonFinal(converters: map<HostType, Converter>, fields: seq<Field>)
    ensures ScanFields(converters, fields).outcome.Ok? <==> forall i :: 0 <= i < |fields| ==> Instantiable(fields[i])
    ensures ScanFields(converters, fields).outcome.Ok? ==> ScanFields(converters, fields).outcome.value == NonFinal(fields)
    decreases |fields|
  {
    if |fields| > 0 {
      var front := fields[..|fields| - 1];
      var f := fields[|fields| - 1];
      ScanCollectsNonFinal(converters, front);
      assert fields == front + [f];
      NonFinalAppend(front, f);
      assert forall i :: 0 <= i < |front| ==> front[i] == fields[i];
    }
  }

  /** Once getAllFields has failed, later fields change nothing. */
  lemma {:induction false} ScanErrorPersists(converters: map<HostType, Converter>, fields: seq<Field>, k: nat)
    requires k <= |fields|
    requires ScanFields(converters, fields[..k]).outcome.Err?
    ensures ScanFields(converters, fields) == ScanFields(converters, fields[..k])
    decreases |fields| - k
  {
    if k < |fields| {
      assert fields[..k + 1][..k] == fields[..k];
      ScanErrorPersists(converters, fields, k + 1);
    } else {
      assert fields[..k] == fields;
    }
  }

  /** A successful getAllFields registers, for each class, the converter of
      the last field of that type that carries one (the last write wins),
      and leaves every other class's converter as it was. */
  lemma {:induction false} ScanLastWriterWins(converters: map<HostType, Converter>, fields: seq<Field>, t: HostType)
    requires ScanFields(converters, fields).outcome.Ok?
    ensures t in ScanFields(converters, fields).converters <==> t in converters || LastConverter(fields, t).Some?
    ensures LastConverter(fields, t).Some? ==>
      ScanFields(converters, fields).converters[t] == LastConverter(fields, t).value
    ensures LastConverter(fields, t).None? && t in converters ==>
      ScanFields(converters, fields).converters[t] == converters[t]
    decreases |fields|
  {
    if |fields| > 0 {
      ScanLastWriterWins(converters, fields[..|fields| - 1], t);
    }
  }

  /** A field that registers a converter registers it for its own type. */
  lemma {:induction false} LastConverterFound(fields: seq<Field>, i: nat)
    requires i < |fields| && Registers(fields[i])
    ensures LastConverter(fields, fields[i].fieldType).Some?
    decreases |fields|
  {
    if i < |fields| - 1 {
      var front := fields[..|fields| - 1];
      assert front[i] == fields[i];
      LastConverterFound(front, i);
    }
  }

  // ---------------------------------------------------------------------
  // getCachedFields, serializeOne, serializeMulti as state transformers

  /** getCachedFields(clazz): the stored list, or getAllFields stored on
      success. */
  function CachedFields(reg: Registry, cls: ClassDescriptor): (Registry, Result<seq<Field>>)
  {
    if cls.name in reg.fieldCache then (reg, Ok(reg.fieldCache[cls.name]))
    else
      var s := ScanFields(reg.converters, cls.declaredFields);
      (Registry(s.converters, if s.outcome.Ok? then reg.fieldCache[cls.name := s.outcome.value] else reg.fieldCache),
       s.outcome)
  }

  /** The fields are computed once: a second getCachedFields returns the
      same list and leaves the registry as the first left it. */
  lemma CachedFieldsStable(reg: Registry, cls: ClassDescriptor)
    requires CachedFields(reg, cls).1.Ok?
    ensures CachedFields(CachedFields(reg, cls).0, cls) == CachedFields(reg, cls)
    ensures cls.name in reg.fieldCache ==> CachedFields(reg, cls).0 == reg
    ensures CachedFields(reg, cls).1.value == (if cls.name in reg.fieldCache then reg.fieldCache[cls.name]
                                                else NonFinal(cls.declaredFields))
  {
    if cls.name !in reg.fieldCache {
      ScanCollectsNonFinal(reg.converters, cls.declaredFields);
    }
  }

  /** What reading a field from the row gives: a missing column (the getter's
      SQLException), another exception, or a value. */
  datatype Read = Missing | Failed(error: Error) | Got(value: Value)

  function ReadColumn(row: Row, column: Option<string>): Read
  {
    if column.Some? && column.value in row then Got(row[column.value]) else Missing
  }

  /** The classes getValueFromResultSet reads with a typed getter. */
  predicate IsPlainRead(t: HostType)
  {
    t.StringType? || t.IntType? || t.LongType? || t.BooleanType? || t.DoubleType? || t.FloatType?
    || t.SqlDateType? || t.TimestampType? || t.TimeType? || t.BigDecimalType?
    || t.BlobType? || t.ClobType? || t.NClobType? || t == ArrayType(ByteType(false))
  }

  /** Enum.valueOf on the text getString returned. */
  function EnumRead(e: EnumType, v: Value): Read
  {
    match v
    case Null => Got(Null)
    case Str(s) => if s in e.constants then Got(EnumConst(e, s)) else Failed(NoEnumConstant(e, s))
    case _ => Failed(ClassCast(v))
  }

  /** getValueFromResultSet(set, columnName, type). */
  function ReadValue(row: Row, column: Option<string>, t: HostType, converters: map<HostType, Converter>,
                     foreign: ForeignCode): Read
  {
    if IsPlainRead(t) then ReadColumn(row, column)
    else if t.EnumClass? then
      match ReadColumn(row, column)
      case Got(v) => EnumRead(t.enumType, v)
      case other => other
    else if t in converters then
      match ReadColumn(row, column)
      case Got(v) =>
        (match ApplyConvert(converters[t], v, foreign)
         case Ok(c) => Got(c)
         case Err(e) => Failed(e))
      case other => other
    else Failed(UnsupportedReadType(t))
  }

  /** The built-in getters come before the enum test and the converters; a
      class with neither fails without touching the row. */
  lemma ReadDispatch(row: Row, column: Option<string>, t: HostType, converters: map<HostType, Converter>,
                     foreign: ForeignCode)
    ensures IsPlainRead(t) ==> ReadValue(row, column, t, converters, foreign) == ReadColumn(row, column)
    ensures !IsPlainRead(t) && !t.EnumClass? && t !in converters ==>
      ReadValue(row, column, t, converters, foreign) == Failed(UnsupportedReadType(t))
    ensures (IsPlainRead(t) || t.EnumClass? || t in converters) && ReadColumn(row, column).Missing? ==>
      ReadValue(row, column, t, converters, foreign).Missing?
    ensures t.EnumClass? && column.Some? && column.value in row && row[column.value].Str? ==>
      ReadValue(row, column, t, converters, foreign)
        == (if row[column.value].s in t.enumType.constants then Got(EnumConst(t.enumType, row[column.value].s))
            else Failed(NoEnumConstant(t.enumType, row[column.value].s)))
  {
  }

  /** Storing a constant without a class body and reading its text back
      through Enum.valueOf gives the constant exactly when it prints as its
      name; a toString that names no constant makes the read fail. */
  lemma EnumStoreThenRead(e: EnumType, n: string, converters: map<HostType, Converter>, foreign: ForeignCode)
    requires n in e.constants && n !in e.withBody
    ensures EnumRead(e, ConvertBackValue(EnumConst(e, n), converters, foreign)) == Got(EnumConst(e, n))
        <==> PrintsName(EnumConst(e, n), foreign)
    ensures foreign.toString(EnumConst(e, n)) !in e.constants ==>
      EnumRead(e, ConvertBackValue(EnumConst(e, n), converters, foreign))
        == Failed(NoEnumConstant(e, foreign.toString(EnumConst(e, n))))
  {
    ConvertBackCases(EnumConst(e, n), converters, foreign);
  }

  /** setFieldValue for one field: a null read leaves the field as it was. */
  function SetField(obj: Instance, f: Field, read: Read): Result<Instance>
  {
    match read
    case Missing => Ok(obj)
    case Failed(e) => Err(e)
    case Got(v) => Ok(if v.Null? then obj else obj[f.name := v])
  }

  /** serializeOne's loop over the fields, from the constructed object: a
      missing column is skipped, any other failure stops the loop. */
  function Populate(obj: Instance, fields: seq<Field>, row: Row, converters: map<HostType, Converter>,
                    foreign: ForeignCode): Result<Instance>
    decreases |fields|
  {
    if |fields| == 0 then Ok(obj)
    else
      var front :- Populate(obj, fields[..|fields| - 1], row, converters, foreign);
      var f := fields[|fields| - 1];
      SetField(front, f, ReadValue(row, ColumnName(f), f.fieldType, converters, foreign))
  }

  /** The value a field ends with: the non-null value read for it, or the
      one it had. */
  predicate Settles(obj: Instance, result: Instance, f: Field, read: Read)
  {
    if read.Got? && !read.value.Null? then f.name in result && result[f.name] == read.value
    else (f.name in result <==> f.name in obj) && (f.name in obj ==> result[f.name] == obj[f.name])
  }

  predicate DistinctNames(fields: seq<Field>)
  {
    forall i, j :: 0 <= i < j < |fields| ==> fields[i].name != fields[j].name
  }

  /** serializeOne succeeds exactly when no field's read fails other than
      by a missing column. */
  lemma {:induction false} PopulateOkIff(obj: Instance, fields: seq<Field>, row: Row,
                                         converters: map<HostType, Converter>, foreign: ForeignCode)
    ensures Populate(obj, fields, row, converters, foreign).Ok?
        <==> forall i :: 0 <= i < |fields| ==>
               !ReadValue(row, ColumnName(fields[i]), fields[i].fieldType, converters, foreign).Failed?
    decreases |fields|
  {
    if |fields| > 0 {
      var front := fields[..|fields| - 1];
      assert forall i :: 0 <= i < |front| ==> front[i] == fields[i];
      PopulateOkIff(obj, front, row, converters, foreign);
    }
  }

  /** On success each field holds its non-null read value or keeps its
      constructed one, and every other entry is left as constructed. */
  lemma {:induction false} PopulateSettles(obj: Instance, fields: seq<Field>, row: Row,
                                           converters: map<HostType, Converter>, foreign: ForeignCode)
    requires DistinctNames(fields)
    requires Populate(obj, fields, row, converters, foreign).Ok?
    ensures forall i :: 0 <= i < |fields| ==>
      Settles(obj, Populate(obj, fields, row, converters, foreign).value, fields[i],
              ReadValue(row, ColumnName(fields[i]), fields[i].fieldType, converters, foreign))
    ensures forall k :: k !in Names(fields) ==>
      (k in Populate(obj, fields, row, converters, foreign).value <==> k in obj)
      && (k in obj ==> Populate(obj, fields, row, converters, foreign).value[k] == obj[k])
    decreases |fields|
  {
    if |fields| > 0 {
      var front := fields[..|fields| - 1];
      var f := fields[|fields| - 1];
      assert forall i :: 0 <= i < |front| ==> front[i] == fields[i];
      assert Names(fields) == Names(front) + {f.name};
      assert f.name !in Names(front);
      PopulateSettles(obj, front, row, converters, foreign);
      var before := Populate(obj, front, row, converters, foreign).value;
      var read := ReadValue(row, ColumnName(f), f.fieldType, converters, foreign);
      var after := Populate(obj, fields, row, converters, foreign).value;
      SetFieldStep(obj, before, after, f, read);
      forall i | 0 <= i < |fields|
        ensures Settles(obj, after, fields[i],
                        ReadValue(row, ColumnName(fields[i]), fields[i].fieldType, converters, foreign))
      {
        if i < |front| {
          assert fields[i].name in Names(front);
          KeepsSettled(obj, before, after, fields[i],
                       ReadValue(row, ColumnName(fields[i]), fields[i].fieldType, converters, foreign), f.name);
        }
      }
    }
  }

  /** Setting one field settles it and leaves every other entry alone. */
  lemma SetFieldStep(obj: Instance, before: Instance, after: Instance, f: Field, read: Read)
    requires SetField(before, f, read) == Ok(after)
    requires (f.name in before <==> f.name in obj) && (f.name in obj ==> before[f.name] == obj[f.name])
    ensures Settles(obj, after, f, read)
    ensures forall k :: k != f.name ==> (k in after <==> k in before) && (k in before ==> after[k] == before[k])
  {
  }

  /** A field settled before an update of another name stays settled. */
  lemma KeepsSettled(obj: Instance, before: Instance, after: Instance, g: Field, read: Read, changed: string)
    requires g.name != changed
    requires forall k :: k != changed ==> (k in after <==> k in before) && (k in before ==> after[k] == before[k])
    requires Settles(obj, before, g, read)
    ensures Settles(obj, after, g, read)
  {
  }

  function Names(fields: seq<Field>): set<string>
  {
    set i | 0 <= i < |fields| :: fields[i].name
  }

  /** serializeOne(clazz, set) on the current row: construction, the cached
      fields, then the loop; every failure is wrapped in
      CannotInstanceException. */
  function One(reg: Registry, cls: ClassDescriptor, row: Row, foreign: ForeignCode): (Registry, Result<Instance>)
  {
    if !cls.constructible then (reg, Err(CannotInstance(cls.name, InstantiationFailed(cls.name))))
    else
      var (reg', fields) := CachedFields(reg, cls);
      if fields.Err? then (reg', Err(CannotInstance(cls.name, fields.error)))
      else
        var obj := Populate(cls.initial, fields.value, row, reg'.converters, foreign);
        (reg', if obj.Ok? then obj else Err(CannotInstance(cls.name, obj.error)))
  }

  /** serializeMulti(clazz, set) over the rows in cursor order. */
  function Multi(reg: Registry, cls: ClassDescriptor, rows: seq<Row>, foreign: ForeignCode): (Registry, Result<seq<Instance>>)
    decreases |rows|
  {
    if |rows| == 0 then (reg, Ok([]))
    else
      var (reg', front) := Multi(reg, cls, rows[..|rows| - 1], foreign);
      if front.Err? then (reg', front)
      else
        var (reg'', obj) := One(reg', cls, rows[|rows| - 1], foreign);
        (reg'', if obj.Ok? then Ok(front.value + [obj.value]) else Err(obj.error))
  }

  /** After a successful serializeOne the next one finds the fields in the
      cache and leaves the registry alone. */
  lemma OneThenCached(reg: Registry, cls: ClassDescriptor, row: Row, row2: Row, foreign: ForeignCode)
    requires One(reg, cls, row, foreign).1.Ok?
    ensures cls.name in One(reg, cls, row, foreign).0.fieldCache
    ensures One(One(reg, cls, row, foreign).0, cls, row2, foreign).0 == One(reg, cls, row, foreign).0
    ensures One(One(reg, cls, row, foreign).0, cls, row, foreign).1 == One(reg, cls, row, foreign).1
  {
  }

  /** serializeMulti yields one object per row, in row order, each row
      populated from the same fields and converters. */
  lemma {:induction false} MultiOnePerRow(reg: Registry, cls: ClassDescriptor, rows: seq<Row>, foreign: ForeignCode)
    requires |rows| > 0
    requires Multi(reg, cls, rows, foreign).1.Ok?
    ensures One(reg, cls, rows[0], foreign).1.Ok?
    ensures |Multi(reg, cls, rows, foreign).1.value| == |rows|
    ensures Multi(reg, cls, rows, foreign).0 == One(reg, cls, rows[0], foreign).0
    ensures forall i :: 0 <= i < |rows| ==>
      One(One(reg, cls, rows[0], foreign).0, cls, rows[i], foreign).1 == Ok(Multi(reg, cls, rows, foreign).1.value[i])
    decreases |rows|
  {
    var front := rows[..|rows| - 1];
    var last := rows[|rows| - 1];
    var first := One(reg, cls, rows[0], foreign).0;
    if |rows| == 1 {
      OneThenCached(reg, cls, rows[0], rows[0], foreign);
    } else {
      MultiOnePerRow(reg, cls, front, foreign);
      assert front[0] == rows[0];
      OneThenCached(reg, cls, rows[0], last, foreign);
      assert forall i :: 0 <= i < |front| ==> front[i] == rows[i];
    }
  }

  /** The registry at class initialisation: the UUID converter, no fields. */
  const InitialRegistry := Registry(map[UuidType := UuidConverter], map[])

  /** The static state of ObjectSerializer. */
  class ObjectSerializer {
    var converters: map<HostType, Converter>
    var fieldCache: map<string, seq<Field>>

    function State(): Registry
      reads this
    {
      Registry(converters, fieldCache)
    }

    /** The static initialiser registers the UUID converter. */
    constructor()
      ensures State() == InitialRegistry
    {
      converters := map[UuidType := UuidConverter];
      fieldCache := map[];
    }

    /** registerConverter(clazz, converter): the last write wins. */
    method RegisterConverter(clazz: HostType, converter: Converter)
      modifies this
      ensures converters == old(converters)[clazz := converter]
      ensures fieldCache == old(fieldCache)
    {
      converters := converters[clazz := converter];
    }

    /** getSqlType(javaType) against the current registry. */
    function SqlType(javaType: HostType): Result<string>
      reads this
    {
      SqlTypeFor(javaType, converters)
    }

    /** convertBack(obj) against the current registry. */
    function ConvertBack(obj: Value, foreign: ForeignCode): Value
      reads this
    {
      ConvertBackValue(obj, converters, foreign)
    }

    /** getAllFields(clazz). */
    method GetAllFields(cls: ClassDescriptor) returns (r: Result<seq<Field>>)
      modifies this
      ensures converters == ScanFields(old(converters), cls.declaredFields).converters
      ensures r == ScanFields(old(converters), cls.declaredFields).outcome
      ensures fieldCache == old(fieldCache)
    {
      var declared := cls.declaredFields;
      var fields: seq<Field> := [];
      for i := 0 to |declared|
        invariant ScanFields(old(converters), declared[..i]) == Scan(converters, Ok(fields))
        invariant fieldCache == old(fieldCache)
      {
        var f := declared[i];
        assert declared[..i + 1][..i] == declared[..i];
        if f.isFinal {
          continue;
        }
        if f.converterAnnotation.Some? {
          if !f.converterAnnotation.value.instantiable {
            ScanErrorPersists(old(converters), declared, i + 1);
            return Err(InstantiationFailed(ConverterClassName(f.converterAnnotation.value.converter)));
          }
          converters := converters[f.fieldType := f.converterAnnotation.value.converter];
        }
        fields := fields + [f];
      }
      assert declared[..|declared|] == declared;
      r := Ok(fields);
    }

    /** getCachedFields(clazz). */
    method GetCachedFields(cls: ClassDescriptor) returns (r: Result<seq<Field>>)
      modifies this
      ensures (State(), r) == CachedFields(old(State()), cls)
    {
      if cls.name in fieldCache {
        return Ok(fieldCache[cls.name]);
      }
      r := GetAllFields(cls);
      if r.Ok? {
        fieldCache := fieldCache[cls.name := r.value];
      }
    }

    /** serializeOne(clazz, set). */
    method SerializeOne(cls: ClassDescriptor, row: Row, foreign: ForeignCode) returns (r: Result<Instance>)
      modifies this
      ensures (State(), r) == One(old(State()), cls, row, foreign)
    {
      if !cls.constructible {
        return Err(CannotInstance(cls.name, InstantiationFailed(cls.name)));
      }
      var fields := GetCachedFields(cls);
      if fields.Err? {
        return Err(CannotInstance(cls.name, fields.error));
      }
      var fs := fields.value;
      var obj := cls.initial;
      for i := 0 to |fs|
        invariant Populate(cls.initial, fs[..i], row, converters, foreign) == Ok(obj)
      {
        var f := fs[i];
        assert fs[..i + 1][..i] == fs[..i];
        var read := ReadValue(row, ColumnName(f), f.fieldType, converters, foreign);
        if read.Failed? {
          PopulateErrorPersists(cls.initial, fs, i + 1, row, converters, foreign);
          return Err(CannotInstance(cls.name, read.error));
        }
        if read.Got? && !read.value.Null? {
          obj := obj[f.name := read.value];
        }
      }
      assert fs[..|fs|] == fs;
      r := Ok(obj);
    }

    /** serializeMulti(clazz, set): one serializeOne per row. */
    method SerializeMulti(cls: ClassDescriptor, rows: seq<Row>, foreign: ForeignCode) returns (r: Result<seq<Instance>>)
      modifies this
      ensures (State(), r) == Multi(old(State()), cls, rows, foreign)
    {
      var list: seq<Instance> := [];
      for i := 0 to |rows|
        invariant Multi(old(State()), cls, rows[..i], foreign) == (State(), Ok(list))
      {
        assert rows[..i + 1][..i] == rows[..i];
        var obj := SerializeOne(cls, rows[i], foreign);
        if obj.Err? {
          MultiErrorPersists(old(State()), cls, rows, i + 1, foreign);
          return Err(obj.error);
        }
        list := list + [obj.value];
      }
      assert rows[..|rows|] == rows;
      r := Ok(list);
    }
  }

  lemma {:induction false} PopulateErrorPersists(obj: Instance, fields: seq<Field>, k: nat, row: Row,
                                                 converters: map<HostType, Converter>, foreign: ForeignCode)
    requires k <= |fields|
    requires Populate(obj, fields[..k], row, converters, foreign).Err?
    ensures Populate(obj, fields, row, converters, foreign) == Populate(obj, fields[..k], row, converters, foreign)
    decreases |fields| - k
  {
    if k < |fields| {
      assert fields[..k + 1][..k] == fields[..k];
      PopulateErrorPersists(obj, fields, k + 1, row, converters, foreign);
    } else {
      assert fields[..k] == fields;
    }
  }

  lemma {:induction false} MultiErrorPersists(reg: Registry, cls: ClassDescriptor, rows: seq<Row>, k: nat, foreign: ForeignCode)
    requires k <= |rows|
    requires Multi(reg, cls, rows[..k], foreign).1.Err?
    ensures Multi(reg, cls, rows, foreign) == Multi(reg, cls, rows[..k], foreign)
    decreases |rows| - k
  {
    if k < |rows| {
      assert rows[..k + 1][..k] == rows[..k];
      MultiErrorPersists(reg, cls, rows, k + 1, foreign);
    } else {
      assert rows[..k] == rows;
    }
  }

  /** ObjectSerializer's static state at class initialisation. */
  method NewObjectSerializer() returns (s: ObjectSerializer)
    ensures fresh(s) && s.State() == InitialRegistry
  {
    s := new ObjectSerializer();
  }
}
