/**
 * The `from_string` class method shared by both `Entity` enumerations:
 * `cls[value.upper()]`, and on a `KeyError` a `ValueError` that lists every
 * member name in lower case, in declaration order.
 */
module EnumNames {
  import opened Wrappers
  import opened Exceptions
  import opened Text

  /** `Enum[key]`: the member whose name is exactly `key`. */
  function Lookup<E(==)>(key: string, members: seq<E>, name: E -> string): (r: Option<E>)
    ensures r.Some? ==> r.value in members && name(r.value) == key
    ensures r.None? ==> forall m :: m in members ==> name(m) != key
  {
    if members == [] then None
    else if name(members[0]) == key then Some(members[0])
    else Lookup(key, members[1..], name)
  }

  /** The member names, lower-cased, joined with ", ", first member first and last member last. */
  function Listing<E>(members: seq<E>, name: E -> string): (r: string)
    ensures members == [] ==> r == []
    ensures members != [] ==> LowerAscii(name(members[0])) <= r
    ensures members != [] ==> var last := LowerAscii(name(members[|members| - 1]));
      |last| <= |r| && r[|r| - |last|..] == last
  {
    Join(", ", seq(|members|, i requires 0 <= i < |members| => LowerAscii(name(members[i]))))
  }

  /** The message quotes the input verbatim and ends with the listing of the names. */
  function InvalidMessage<E>(value: string, members: seq<E>, name: E -> string): (r: string)
    ensures |r| == 16 + |value| + 18 + |Listing(members, name)|
    ensures r[..16] == "Invalid entity: " && r[16..16 + |value|] == value
    ensures r[|r| - |Listing(members, name)|..] == Listing(members, name)
  {
    "Invalid entity: " + value + ". Must be one of: " + Listing(members, name)
  }

  /** `from_string(value)`. */
  function Parse<E(==)>(value: string, members: seq<E>, name: E -> string): (r: Result<E, Error>)
    ensures r.Ok? ==> r.value in members && name(r.value) == Upper(value)
    ensures r.Err? ==> forall m :: m in members ==> name(m) != Upper(value)
    ensures r.Err? ==> r.error == ValueError(InvalidMessage(value, members, name))
  {
    match Lookup(Upper(value), members, name)
    case Some(e) => Ok(e)
    case None => Err(ValueError(InvalidMessage(value, members, name)))
  }

  /** Member names that are distinct upper-case ASCII words. */
  predicate WellNamed<E(==)>(members: seq<E>, name: E -> string) {
    && (forall m :: m in members ==> AllUpper(name(m)))
    && (forall i, j :: 0 <= i < j < |members| ==> name(members[i]) != name(members[j]))
  }

  /**
   * Parsing succeeds with `e` exactly when the upper-case form of the input is
   * `e`'s name; so "plane", "Plane" and "PLANE" all give the same member.
   */
  lemma ParseIff<E>(value: string, members: seq<E>, name: E -> string, e: E)
    requires WellNamed(members, name) && e in members
    ensures Parse(value, members, name) == Ok(e) <==> Upper(value) == name(e)
  {
    var r := Parse(value, members, name);
    if Upper(value) == name(e) {
      assert r.Ok?;
      var i :| 0 <= i < |members| && members[i] == r.value;
      var j :| 0 <= j < |members| && members[j] == e;
      assert i == j;
    }
  }

  /** The name itself and its lower-case spelling both parse to the member. */
  lemma ParseSpellings<E>(members: seq<E>, name: E -> string, e: E)
    requires WellNamed(members, name) && e in members
    ensures Parse(name(e), members, name) == Ok(e)
    ensures Parse(LowerAscii(name(e)), members, name) == Ok(e)
  {
    UpperOfUpper(name(e));
    UpperOfLower(name(e));
    ParseIff(name(e), members, name, e);
    ParseIff(LowerAscii(name(e)), members, name, e);
  }
}
