/** `to_nullable_enum` (src/aiowaqi/util.py): look a value up among an enum's
    members and, instead of raising, return None and log a warning when no member
    has that value. The log call is returned as a diagnostic value. */
module Util {
  import opened Results
  import opened Payload

  /** One `LOGGER.warning` call: the offending value and `str(enum_class)`. */
  datatype Warning = UnsupportedValue(value: Json, enumClass: string)

  /** The member found, if any, with the warnings logged while finding it. */
  datatype Lookup<E> = Lookup(member: Option<E>, warnings: seq<Warning>)

  /** `enum_class(value)`: the first member whose value equals `value`. */
  function FindByValue<E>(members: seq<E>, valueOf: E -> Json, value: Json): (r: Option<E>)
    ensures r.Some? <==> exists m :: m in members && valueOf(m) == value
    ensures r.Some? ==> r.value in members && valueOf(r.value) == value
  {
    if members == [] then None
    else if valueOf(members[0]) == value then Some(members[0])
    else FindByValue(members[1..], valueOf, value)
  }

  /** util.py:15-25. A value that names a member gives that member and no warning;
      any other value gives None and exactly one warning naming the value and the class. */
  function ToNullableEnum<E>(enumClass: string, members: seq<E>, valueOf: E -> Json, value: Json): (r: Lookup<E>)
    ensures r.member.Some? <==> exists m :: m in members && valueOf(m) == value
    ensures r.member.Some? ==> r.member.value in members && valueOf(r.member.value) == value && r.warnings == []
    ensures r.member.None? ==> r.warnings == [UnsupportedValue(value, enumClass)]
  {
    match FindByValue(members, valueOf, value)
    case Some(m) => Lookup(Some(m), [])
    case None => Lookup(None, [UnsupportedValue(value, enumClass)])
  }

  /** Enum values are distinct, so the member found is the one that has the value. */
  lemma ToNullableEnumFindsTheMember<E>(enumClass: string, members: seq<E>, valueOf: E -> Json, m: E)
    requires m in members
    requires forall a, b :: a in members && b in members && valueOf(a) == valueOf(b) ==> a == b
    ensures ToNullableEnum(enumClass, members, valueOf, valueOf(m)) == Lookup(Some(m), [])
  {
  }
}
