/** JSON values as the client manipulates them (the value side of
    nlohmann::json; its text form is not modelled). */
module JsonModel {

  /** A decimal number as the user typed it. The client converts it to a
      `double` with `std::stod`; that conversion is not modelled, so the
      text stands for the number. */
  type Decimal = string

  datatype Json =
    | Null
    | Bool(b: bool)
    | Int(i: int)
    | Num(literal: Decimal)
    | Str(s: string)
    | Arr(items: seq<Json>)
    | Obj(fields: map<string, Json>)

  /** `j.contains(key)`: true only for an object that has the key. */
  predicate Contains(j: Json, key: string) {
    j.Obj? && key in j.fields
  }

  /** The member `key` of an object that contains it. */
  function Get(j: Json, key: string): Json
    requires Contains(j, key)
  {
    j.fields[key]
  }

  /** The members of a value that is about to be written as an object:
      `operator[]` turns a null value into an empty object first. */
  function Members(j: Json): map<string, Json> {
    if j.Obj? then j.fields else map[]
  }

  /** What reading `j[key]` through `operator[]` gives: a member, a thrown
      type error, or (const `operator[]` only) a failed assertion on a key
      the object does not have. */
  datatype Lookup = Found(value: Json) | WrongType | Missing

  /** The non-const `operator[]` with a string key, read once: a null value
      or an object without the key reads as null, and every other kind of
      value throws a type error. */
  function Subscript(j: Json, key: string): (r: Lookup)
    ensures !r.Missing?
    ensures r.WrongType? <==> !(j.Null? || j.Obj?)
    ensures Contains(j, key) ==> r == Found(Get(j, key))
    ensures r.Found? && !Contains(j, key) ==> r.value == Null
  {
    match j
    case Null => Found(Null)
    case Obj(m) => if key in m then Found(m[key]) else Found(Null)
    case _ => WrongType
  }

  /** The const `operator[]` with a string key: it reads the member of an
      object that has the key; any other kind of value throws a type error,
      and an object without the key fails an assertion (undefined behaviour
      when assertions are compiled out). */
  function ConstSubscript(j: Json, key: string): (r: Lookup)
    ensures r.WrongType? <==> !j.Obj?
    ensures r.Missing? <==> j.Obj? && key !in j.fields
    ensures r.Found? ==> Contains(j, key) && r.value == Get(j, key)
  {
    match j
    case Obj(m) => if key in m then Found(m[key]) else Missing
    case _ => WrongType
  }
}
