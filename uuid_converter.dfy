/** UUIDConverter: UUIDs are stored as their canonical text in a TEXT
    column and read back from that text. */
module UuidConversion {
  import opened Wrappers
  import opened Text
  import opened Uuids
  import opened Values
  import opened Errors

  /** convert(o): a String is parsed, anything else is cast to UUID (a
      null reference passes the cast). */
  function Convert(o: Value): (r: Result<Value>)
    ensures o.Str? ==> (r.Ok? <==> IsUuidText(o.s))
    ensures o.Str? && r.Err? ==> r.error == InvalidUuid(o.s)
    ensures o.UuidObj? || o.Null? ==> r == Ok(o)
    ensures !o.Str? && !o.UuidObj? && !o.Null? ==> r == Err(ClassCast(o))
    ensures r.Ok? ==> r.value.UuidObj? || r.value.Null?
  {
    match o
    case Str(s) =>
      var parsed := FromString(s);
      if parsed.Some? then Ok(UuidObj(parsed.value)) else Err(InvalidUuid(s))
    case UuidObj(_) => Ok(o)
    case Null => Ok(Null)
    case _ => Err(ClassCast(o))
  }

  /** convertBack(t): a UUID becomes its text; anything else is returned
      unchanged. */
  function ConvertBack(t: Value): (r: Value)
    ensures t.UuidObj? ==> r == Str(ToString(t.uuid)) && IsUuidText(r.s)
    ensures !t.UuidObj? ==> r == t
  {
    if t.UuidObj? then Str(ToString(t.uuid)) else t
  }

  /** getSqlType() */
  const SqlType: string := "TEXT"

  /** Storing a UUID and reading it back gives the same UUID. */
  lemma StoreThenRead(u: Uuid)
    ensures Convert(ConvertBack(UuidObj(u))) == Ok(UuidObj(u))
  {
    FromStringToString(u);
  }

  /** Reading a stored text and storing it again gives the text in lower
      case: the upper-case hex digits that UUID.fromString accepts do not
      survive. */
  lemma ReadThenStore(s: string)
    requires Convert(Str(s)).Ok?
    ensures ConvertBack(Convert(Str(s)).value) == Str(LowerCase(s))
  {
    ToStringFromString(s);
  }
}
