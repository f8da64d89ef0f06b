/** Java objects and classes as the model sees them: the values a caller
    binds as statement parameters or stores in mapped fields, and the host
    types the type registry dispatches on. */
module Values {
  import opened Uuids

  /** A Java enum class: its name, its constants in declaration order, and
      the constants declared with a class body of their own. */
  datatype EnumType = EnumType(typeName: string, constants: seq<string>, withBody: set<string>)

  /** A Java class object (Class<?>), for the classes the library tests for
      by identity; `boxed` tells the wrapper class from the primitive one. */
  datatype HostType =
    | StringType
    | IntType(boxed: bool)
    | LongType(boxed: bool)
    | BooleanType(boxed: bool)
    | DoubleType(boxed: bool)
    | FloatType(boxed: bool)
    | ByteType(boxed: bool)
    | SqlDateType
    | TimestampType
    | TimeType
    | BigDecimalType
    | BlobType
    | ClobType
    | NClobType
    | ArrayType(component: HostType)
    | EnumClass(enumType: EnumType)
    | UuidType
    | ClassType(name: string)
    /** The anonymous subclass of a constant declared with a class body:
        isEnum() is false for it. */
    | ConstantBodyClass(enumType: EnumType, constant: string)

  /** A Java object reference. Doubles, floats, dates, decimals, LOBs, byte
      arrays and instances of user classes are Opaque: known by their
      runtime class and an identity, since the model never looks inside. */
  datatype Value =
    | Null
    | Str(s: string)
    | Int(i: int)
    | Long(l: int)
    | Bool(b: bool)
    | UuidObj(uuid: Uuid)
    | EnumConst(enumType: EnumType, name: string)
    | ListOf(items: seq<Value>)
    | Opaque(runtimeClass: HostType, identity: int)

  /** obj.getClass() for a non-null object; boxed values have the wrapper
      class, and a constant with a class body has its anonymous subclass. */
  function ClassOf(v: Value): HostType
    requires !v.Null?
  {
    match v
    case Str(_) => StringType
    case Int(_) => IntType(true)
    case Long(_) => LongType(true)
    case Bool(_) => BooleanType(true)
    case UuidObj(_) => UuidType
    case EnumConst(e, n) => if n in e.withBody then ConstantBodyClass(e, n) else EnumClass(e)
    case ListOf(_) => ClassType("java.util.List")
    case Opaque(c, _) => c
  }
}
