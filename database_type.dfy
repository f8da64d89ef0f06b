/** The DatabaseType enum: the four dialects every rendering branch is
    driven by, and its case-insensitive lookup by name. */
module DatabaseTypes {
  import opened Text
  import opened Wrappers

  datatype DatabaseType = SQLITE | MYSQL | MARIADB | POSTGRESQL

  /** name(), which is also what toString() gives. */
  function Name(d: DatabaseType): string
  {
    match d
    case SQLITE => "SQLITE"
    case MYSQL => "MYSQL"
    case MARIADB => "MARIADB"
    case POSTGRESQL => "POSTGRESQL"
  }

  /** values(), in declaration order. */
  const AllTypes: seq<DatabaseType> := [SQLITE, MYSQL, MARIADB, POSTGRESQL]

  lemma AllTypesComplete()
    ensures forall d :: d in AllTypes
  {
    forall d ensures d in AllTypes {
      match d
      case SQLITE => assert AllTypes[0] == d;
      case MYSQL => assert AllTypes[1] == d;
      case MARIADB => assert AllTypes[2] == d;
      case POSTGRESQL => assert AllTypes[3] == d;
    }
  }

  /** The linear search of getByName over ds: the first constant whose name
      equals name ignoring case. */
  function FindByName(ds: seq<DatabaseType>, name: string): (r: Option<DatabaseType>)
    ensures r.Some? ==> r.value in ds && EqualsIgnoreCase(Name(r.value), name)
    ensures r.None? ==> forall d :: d in ds ==> !EqualsIgnoreCase(Name(d), name)
  {
    if |ds| == 0 then None
    else if EqualsIgnoreCase(Name(ds[0]), name) then Some(ds[0])
    else FindByName(ds[1..], name)
  }

  /** getByName(name); a null name matches nothing. */
  function GetByName(name: Option<string>): (r: Option<DatabaseType>)
    ensures r.Some? <==> name.Some? && exists d :: EqualsIgnoreCase(Name(d), name.value)
    ensures r.Some? ==> EqualsIgnoreCase(Name(r.value), name.value)
  {
    if name.None? then None
    else
      var r := FindByName(AllTypes, name.value);
      AllTypesComplete();
      r
  }

  /** The four names have pairwise different lengths, so no name can equal
      two of them ignoring case: at most one constant matches any name. */
  lemma AtMostOneMatches(name: string, d1: DatabaseType, d2: DatabaseType)
    requires EqualsIgnoreCase(Name(d1), name) && EqualsIgnoreCase(Name(d2), name)
    ensures d1 == d2
  {
  }

  /** getByName(d.name()) == d for each constant. */
  lemma GetByNameOfName(d: DatabaseType)
    ensures GetByName(Some(Name(d))) == Some(d)
  {
    var r := GetByName(Some(Name(d)));
    assert EqualsIgnoreCase(Name(d), Name(d));
    AtMostOneMatches(Name(d), d, r.value);
  }

  /** With ASCII case folding, two characters are equal ignoring case exactly
      when their upper-case forms are equal. */
  lemma CharEqualsIgnoreCaseIsUpper(a: char, b: char)
    ensures CharEqualsIgnoreCase(a, b) <==> ToUpper(a) == ToUpper(b)
  {
  }

  /** Matching ignores case: two names equal ignoring case find the same
      constant (or both none). */
  lemma GetByNameIgnoresCase(s: string, t: string)
    requires EqualsIgnoreCase(s, t)
    ensures GetByName(Some(s)) == GetByName(Some(t))
  {
    forall d ensures EqualsIgnoreCase(Name(d), s) <==> EqualsIgnoreCase(Name(d), t) {
      var n := Name(d);
      if |n| == |s| {
        forall k | 0 <= k < |s|
          ensures CharEqualsIgnoreCase(n[k], s[k]) <==> CharEqualsIgnoreCase(n[k], t[k])
        {
          CharEqualsIgnoreCaseIsUpper(s[k], t[k]);
          CharEqualsIgnoreCaseIsUpper(n[k], s[k]);
          CharEqualsIgnoreCaseIsUpper(n[k], t[k]);
        }
      }
    }
    var r1, r2 := GetByName(Some(s)), GetByName(Some(t));
    if r1.Some? {
      AtMostOneMatches(t, r1.value, r2.value);
    }
  }

  /** Looking up the lower-case spelling of a constant finds it. */
  lemma GetByNameLowerCase(d: DatabaseType)
    ensures GetByName(Some(LowerCase(Name(d)))) == Some(d)
  {
    var n := Name(d);
    forall k | 0 <= k < |n| ensures CharEqualsIgnoreCase(n[k], LowerCase(n)[k]) {
      CharEqualsIgnoreCaseIsUpper(n[k], LowerCase(n)[k]);
    }
    GetByNameIgnoresCase(n, LowerCase(n));
    GetByNameOfName(d);
  }
}
