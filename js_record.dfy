/** Reading a property of a JavaScript object literal, `record[key]`: an own property of the
    literal, or else a member every object inherits from `Object.prototype`, or else
    `undefined`. A literal's own properties are a map from key to value; their order plays
    no part in a lookup. */
module JsRecord {

  /** The members of `Object.prototype`; each is a function or an object, so truthy. */
  const ObjectPrototypeMembers: seq<string> := [
    "constructor", "hasOwnProperty", "isPrototypeOf", "propertyIsEnumerable", "toLocaleString",
    "toString", "valueOf", "__proto__", "__defineGetter__", "__defineSetter__",
    "__lookupGetter__", "__lookupSetter__"]

  /** What `record[key]` reads. */
  datatype Property<+T> = Own(value: T) | Inherited(member: string) | Absent

  /** `record[key]` on an object literal with the given own properties: an own property
      shadows the prototype, and a key that is neither reads `undefined`. */
  function Get<T>(record: map<string, T>, key: string): (p: Property<T>)
    ensures p.Own? <==> key in record
    ensures p.Own? ==> p.value == record[key]
    ensures p.Inherited? <==> key !in record && key in ObjectPrototypeMembers
    ensures p.Inherited? ==> p.member == key
    ensures p.Absent? <==> key !in record && key !in ObjectPrototypeMembers
  {
    if key in record then Own(record[key])
    else if key in ObjectPrototypeMembers then Inherited(key)
    else Absent
  }
}
