/** The JavaScript values a client can put into a socket message, with the
    operations the server and the page apply to them: truthiness (for `||`
    defaults and `!text`), property access, the property name `String(v)` a
    value selects, and lookups in object-literal tables, which also find the
    members every object inherits from `Object.prototype`. */
module JsValues {
  import opened JsString
  import opened Wrappers

  /** Numbers are modelled by their integer value (NaN and fractions are not
      modelled); an object is a map from property names to values. */
  datatype JsValue =
    | Undefined
    | Null
    | Bool(b: bool)
    | Num(n: int)
    | Str(s: string)
    | Arr(items: seq<JsValue>)
    | Obj(fields: map<string, JsValue>)

  /** JavaScript truthiness: `undefined`, `null`, `false`, `0` and `""` are
      falsy; every array and object is truthy. */
  predicate Truthy(v: JsValue) {
    match v
    case Undefined => false
    case Null => false
    case Bool(b) => b
    case Num(n) => n != 0
    case Str(s) => s != ""
    case Arr(_) => true
    case Obj(_) => true
  }

  /** `a || b`. */
  function Or(a: JsValue, b: JsValue): JsValue {
    if Truthy(a) then a else b
  }

  /** The element of an array whose index prints as `key`, if any. */
  function ElementAt(items: seq<JsValue>, key: string, i: nat): JsValue
    decreases |items| - i
  {
    if i >= |items| then Undefined
    else if NatToString(i) == key then items[i]
    else ElementAt(items, key, i + 1)
  }

  /** `v[key]` on an object or an array: an array has its indices and
      `length`; a missing property reads as `undefined`. The message handler
      reads only names that no prototype supplies. */
  function Get(v: JsValue, key: string): JsValue
    requires v.Obj? || v.Arr?
  {
    match v
    case Obj(fields) => if key in fields then fields[key] else Undefined
    case Arr(items) => if key == "length" then Num(|items|) else ElementAt(items, key, 0)
  }

  /** An array has no element under a name that does not start with a digit. */
  lemma {:induction false} NoElementNamed(items: seq<JsValue>, key: string, i: nat)
    requires key != [] && !('0' <= key[0] <= '9')
    ensures ElementAt(items, key, i) == Undefined
    decreases |items| - i
  {
    if i < |items| {
      assert NatToString(i)[0] != key[0];
      NoElementNamed(items, key, i + 1);
    }
  }

  /** The property name `String(v)` that `table[v]` looks up. An array is
      written as `join(',')` of its elements, with `null` and `undefined`
      elements written as nothing; a plain object is "[object Object]". */
  function PropertyKey(v: JsValue): (r: string)
    ensures v.Str? ==> r == v.s
    ensures v.Arr? && v.items == [] ==> r == ""
  {
    match v
    case Undefined => "undefined"
    case Null => "null"
    case Bool(b) => if b then "true" else "false"
    case Num(n) => IntToString(n)
    case Str(s) => s
    case Arr(items) =>
      Join(seq(|items|, i requires 0 <= i < |items| =>
        if items[i].Undefined? || items[i].Null? then "" else PropertyKey(items[i])))
    case Obj(_) => "[object Object]"
  }

  /** An array of one value selects what that value selects, except that a
      lone `null` or `undefined` selects the empty name. */
  lemma SingletonArrayKey(x: JsValue)
    ensures PropertyKey(Arr([x])) == if x.Undefined? || x.Null? then "" else PropertyKey(x)
  {
    var pieces := seq(1, i requires 0 <= i < 1 =>
      if [x][i].Undefined? || [x][i].Null? then "" else PropertyKey([x][i]));
    assert pieces == [if x.Undefined? || x.Null? then "" else PropertyKey(x)];
  }

  /** `a || b` with a truthy default is always truthy, and it is the default exactly
      when the value was falsy. */
  lemma OrDefault(a: JsValue, b: JsValue)
    requires Truthy(b)
    ensures Truthy(Or(a, b))
    ensures Or(a, b) == b <==> !Truthy(a) || a == b
  {
  }

  // ---------------------------------------------------------------- table lookups

  /** The members every object literal inherits from `Object.prototype`. */
  const ObjectPrototypeNames: set<string> :=
    {"constructor", "__proto__", "__defineGetter__", "__defineSetter__", "__lookupGetter__",
     "__lookupSetter__", "hasOwnProperty", "isPrototypeOf", "propertyIsEnumerable",
     "toLocaleString", "toString", "valueOf"}

  /** What `table[key]` finds on an object literal: one of its own entries, a
      member inherited from `Object.prototype` (a native function, or for
      `__proto__` the prototype object; both are truthy), or `undefined`. */
  datatype Found<T> = Own(value: T) | Inherited(name: string) | Missing

  /** `table[key]` on a table whose own entries `own` gives: an own entry wins
      over an inherited member of the same name. */
  function Lookup<T>(own: Option<T>, key: string): Found<T> {
    match own
    case Some(x) => Own(x)
    case None => if key in ObjectPrototypeNames then Inherited(key) else Missing
  }

  /** `table[key] || fallback` on a table whose own entries are all truthy:
      only `undefined` is replaced. */
  function OrOwn<T>(f: Found<T>, fallback: T): Found<T> {
    if f.Missing? then Own(fallback) else f
  }

  /** `String(member)` for an inherited member: a native function prints its
      name (`constructor` is the function `Object`), the prototype object
      prints as "[object Object]". */
  function InheritedText(name: string): string {
    if name == "__proto__" then "[object Object]"
    else "function " + (if name == "constructor" then "Object" else name) + "() { [native code] }"
  }

  /** A table lookup misses exactly when the table has no own entry and the
      name is not inherited; with a fallback it never misses, and the fallback
      is taken only then. */
  lemma LookupOrOwn<T>(own: Option<T>, key: string, fallback: T)
    ensures Lookup(own, key).Missing? <==> own.None? && key !in ObjectPrototypeNames
    ensures own.Some? ==> OrOwn(Lookup(own, key), fallback) == Own(own.value)
    ensures own.None? && key in ObjectPrototypeNames ==> OrOwn(Lookup(own, key), fallback) == Inherited(key)
    ensures own.None? && key !in ObjectPrototypeNames ==> OrOwn(Lookup(own, key), fallback) == Own(fallback)
  {
  }
}
