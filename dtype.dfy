/**
 * Column type tags (element/DType.go). `Dtype` is a Go `int`, so any integer
 * can be converted to it; only 1, 2 and 3 are named.
 */
module Dtypes {
  type Dtype = int

  const IntType: Dtype := 1
  const StringType: Dtype := 2
  const FloatType: Dtype := 3

  /** The three tags the DataFrame knows how to store. */
  predicate Known(d: Dtype) {
    d == IntType || d == StringType || d == FloatType
  }

  /** `Dtype.String()`: the display name of a tag, "" for every unnamed tag. */
  function Name(d: Dtype): (s: string)
    ensures d == IntType ==> s == "Integer"
    ensures d == StringType ==> s == "String"
    ensures d == FloatType ==> s == "Float"
    ensures !Known(d) ==> s == ""
  {
    if d == IntType then "Integer"
    else if d == StringType then "String"
    else if d == FloatType then "Float"
    else ""
  }

  /** A name is non-empty exactly on the named tags, and it identifies the tag. */
  lemma NameIdentifiesTag(d: Dtype, e: Dtype)
    ensures Name(d) != "" <==> Known(d)
    ensures Known(d) && Known(e) && Name(d) == Name(e) ==> d == e
  {
    if Known(d) && Known(e) && Name(d) == Name(e) {
      assert Name(d)[0] == Name(e)[0];
    }
  }
}
