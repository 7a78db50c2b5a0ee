/**
 * The boxed value of element/element.go. A Go `interface{}` carries a dynamic
 * type; the model distinguishes the three the accessors test for (`int`,
 * `float64`, `string`) and gathers every other dynamic type under `GoOther`.
 */
module Elements {
  import opened Wrappers
  import opened Errors
  import opened GoNumbers

  datatype Dynamic =
    | GoInt(i: Int64)
    | GoFloat64(f: Float64)
    | GoString(s: string)
    | GoOther(typeName: string, id: int)

  datatype Element = Element(value: Dynamic)

  /** `New`: boxes a value. */
  function New(v: Dynamic): Element {
    Element(v)
  }

  /**
   * `String()`: a boxed string as it is; anything else rendered by `fmt.Sprint`,
   * which is passed in as `sprint`. It never reports an error.
   */
  function String(e: Element, sprint: Dynamic -> string): (r: (string, Option<Error>))
    ensures r.1 == None
    ensures e.value.GoString? ==> r.0 == e.value.s
    ensures !e.value.GoString? ==> r.0 == sprint(e.value)
  {
    match e.value
    case GoString(s) => (s, None)
    case _ => (sprint(e.value), None)
  }

  /** `Int()`: succeeds exactly on a boxed Go `int`. */
  function Int(e: Element): (r: (Int64, Option<Error>))
    ensures r.1 == None <==> e.value.GoInt?
    ensures e.value.GoInt? ==> r.0 == e.value.i
    ensures !e.value.GoInt? ==> r == (0, Some(Plain("invalid cast to int")))
  {
    match e.value
    case GoInt(i) => (i, None)
    case _ => (0, Some(Plain("invalid cast to int")))
  }

  /** `Float()`: succeeds exactly on a boxed `float64`. */
  function Float(e: Element): (r: (Float64, Option<Error>))
    ensures r.1 == None <==> e.value.GoFloat64?
    ensures e.value.GoFloat64? ==> r.0 == e.value.f
    ensures !e.value.GoFloat64? ==> r == (0.0, Some(Plain("invalid cast to float")))
  {
    match e.value
    case GoFloat64(f) => (f, None)
    case _ => (0.0, Some(Plain("invalid cast to float")))
  }

  /** `MustString()`: the unchecked cast; any other dynamic type is a Go panic. */
  function MustString(e: Element): (s: string)
    requires e.value.GoString?
    ensures forall sprint: Dynamic -> string :: String(e, sprint) == (s, None)
  {
    e.value.s
  }

  /** `MustInt()`: the unchecked cast; agrees with the checked one where it is defined. */
  function MustInt(e: Element): (i: Int64)
    requires e.value.GoInt?
    ensures Int(e) == (i, None)
  {
    e.value.i
  }

  /** `MustFloat()`: the unchecked cast; agrees with the checked one where it is defined. */
  function MustFloat(e: Element): (f: Float64)
    requires e.value.GoFloat64?
    ensures Float(e) == (f, None)
  {
    e.value.f
  }

  /** Boxing a value and reading it back with the matching accessor returns it unchanged. */
  lemma BoxRoundTrip(v: Dynamic, sprint: Dynamic -> string)
    ensures v.GoInt? ==> Int(New(v)) == (v.i, None)
    ensures v.GoFloat64? ==> Float(New(v)) == (v.f, None)
    ensures v.GoString? ==> String(New(v), sprint) == (v.s, None)
  {
  }
}
