/** JavaScript values as received from `JSON.parse` or `response.json()`, plus
    `undefined` for a missing property or an index past the end of an array. */
module JsonValue {

  import opened Wrappers
  import opened Numbers
  import opened Text

  datatype Json =
    | Undefined
    | Null
    | Bool(b: bool)
    | Number(n: real)
    | Str(s: string)
    | Arr(items: seq<Json>)
    | Obj(fields: map<string, Json>)

  /** JavaScript truthiness (`!!v`); a parsed JSON number is never NaN. */
  predicate Truthy(v: Json) {
    match v
    case Undefined => false
    case Null => false
    case Bool(b) => b
    case Number(n) => n != 0.0
    case Str(s) => s != ""
    case Arr(_) => true
    case Obj(_) => true
  }

  /** `v[name]` on an object; anything else reads as `undefined` here (the callers
      in the model check for null and undefined before reading a property). */
  function Field(v: Json, name: string): (r: Json)
    ensures v.Obj? && name in v.fields ==> r == v.fields[name]
    ensures !(v.Obj? && name in v.fields) ==> r == Undefined
  {
    if v.Obj? && name in v.fields then v.fields[name] else Undefined
  }

  /** `v[i]`: an array's item, a string's one-character string, or an object's
      property named by the index's decimal form (`"0"`, `"1"`, ...); `undefined`
      past the end or on any other value. */
  function At(v: Json, i: nat): (r: Json)
    ensures v.Arr? && i < |v.items| ==> r == v.items[i]
    ensures v.Str? && i < |v.s| ==> r == Str([v.s[i]])
    ensures v.Obj? ==> r == Field(v, NatToString(i))
    ensures !(v.Arr? && i < |v.items|) && !(v.Str? && i < |v.s|) && !v.Obj? ==> r == Undefined
  {
    if v.Arr? && i < |v.items| then v.items[i]
    else if v.Str? && i < |v.s| then Str([v.s[i]])
    else if v.Obj? then Field(v, NatToString(i))
    else Undefined
  }

  /** The iterables among JSON values: arrays and strings. */
  predicate Iterable(v: Json) {
    v.Arr? || v.Str?
  }

  /** A stand-in for the `message` of the `TypeError` that destructuring a value
      which is not iterable throws. */
  const NotIterableMessage: string := "object is not iterable"

  /** A stand-in for the `message` of the `TypeError` a property read on `null` or
      `undefined` throws (the engine's text also names the property). */
  const TypeErrorMessage: string := "Cannot read properties of null or undefined"

  predicate Nullish(v: Json) {
    v == Null || v == Undefined
  }

  /** `v[name]` as JavaScript evaluates it: a `TypeError` on a nullish value. */
  function Get(v: Json, name: string): (r: Result<Json>)
    ensures r.Failure? <==> Nullish(v)
    ensures r.Success? ==> r.value == Field(v, name)
  {
    if Nullish(v) then Failure(TypeErrorMessage) else Success(Field(v, name))
  }

  /** `v[i]` as JavaScript evaluates it: a `TypeError` on a nullish value. */
  function GetIndex(v: Json, i: nat): (r: Result<Json>)
    ensures r.Failure? <==> Nullish(v)
    ensures r.Success? ==> r.value == At(v, i)
  {
    if Nullish(v) then Failure(TypeErrorMessage) else Success(At(v, i))
  }

  /** `parseFloat(v)`: a number is itself; a string is parsed; every other value
      (whose string form has no numeric prefix) is NaN. */
  function ToNum(v: Json): (r: Num)
    ensures v.Number? ==> r == Real(v.n)
    ensures v.Str? ==> r == ParseFloat(v.s)
  {
    match v
    case Number(n) => Real(n)
    case Str(s) => ParseFloat(s)
    case _ => NaN
  }

  /** `items.map(f)` where `f` may throw: the first failure is the result. */
  function MapAll<U>(items: seq<Json>, f: Json -> Result<U>): (r: Result<seq<U>>)
    ensures r.Success? <==> forall i :: 0 <= i < |items| ==> f(items[i]).Success?
    ensures r.Success? ==> |r.value| == |items| && forall i :: 0 <= i < |items| ==> r.value[i] == f(items[i]).value
  {
    if items == [] then Success([])
    else
      var head := f(items[0]);
      if head.Failure? then Failure(head.error)
      else
        var rest := MapAll(items[1..], f);
        if rest.Failure? then
          assert exists i :: 1 <= i < |items| && f(items[i]).Failure? by {
            var j :| 0 <= j < |items[1..]| && f(items[1..][j]).Failure?;
            assert items[1..][j] == items[j + 1];
          }
          Failure(rest.error)
        else Success([head.value] + rest.value)
  }

  /** A stand-in for the `message` of the `TypeError` that calling `map` on a
      non-array throws. */
  const NotAFunctionMessage: string := "map is not a function"

  /** `v.map(f)`: only an array has `map`. */
  function JsMap<U>(v: Json, f: Json -> Result<U>): (r: Result<seq<U>>)
    ensures !v.Arr? ==> r.Failure?
    ensures v.Arr? ==> r == MapAll(v.items, f)
  {
    if !v.Arr? then Failure(if Nullish(v) then TypeErrorMessage else NotAFunctionMessage)
    else MapAll(v.items, f)
  }

  /** A number as `JSON.stringify` writes it: NaN becomes `null`. */
  function FromNum(x: Num): (r: Json)
    ensures x.Real? <==> r.Number?
    ensures x.Real? ==> r.n == x.value
  {
    if x.Real? then Number(x.value) else Null
  }

  /** `parseFloat(v)` as it reaches the client after serialisation. */
  function ParsedJson(v: Json): Json {
    FromNum(ToNum(v))
  }
}
