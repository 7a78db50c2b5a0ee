/**
 * The cursor of element/iterator.go: a fixed sequence of boxed values, a
 * position that starts before the first one, and the last cast error seen.
 */
module Iterators {
  import opened Wrappers
  import opened Errors
  import opened GoNumbers
  import opened Elements

  class Iterator {
    var err: Option<Error>
    var pos: int
    const data: seq<Element>

    /** `NewIterator`: boxes every value, in order, positioned before the first. */
    constructor NewIterator(values: seq<Dynamic>)
      ensures |data| == |values|
      ensures forall k :: 0 <= k < |values| ==> data[k] == New(values[k])
      ensures pos == -1 && err == None
    {
      var elements: seq<Element> := [];
      for i := 0 to |values|
        invariant |elements| == i
        invariant forall k :: 0 <= k < i ==> elements[k] == New(values[k])
      {
        elements := elements + [New(values[i])];
      }
      data := elements;
      pos := -1;
      err := None;
    }

    /**
     * `HasNext`, as written: it asks for an element only once an error has been
     * recorded, so it is false until some cast has failed.
     */
    function HasNext(): (b: bool)
      reads this
      ensures b <==> err.Some? && pos + 1 < |data|
    {
      err != None && pos + 1 < |data|
    }

    /** `HasNext` as evidently intended: more elements and no error so far. */
    function HasNextIntended(): (b: bool)
      reads this
      ensures b <==> err == None && pos + 1 < |data|
    {
      err == None && pos + 1 < |data|
    }

    /** `NextInt`: advances one position and casts; a failed cast is recorded in `err`. */
    method NextInt() returns (v: Int64)
      requires -1 <= pos && pos + 1 < |data|
      modifies this
      ensures pos == old(pos) + 1
      ensures v == Int(data[pos]).0
      ensures err == if Int(data[pos]).1.Some? then Int(data[pos]).1 else old(err)
      ensures old(err).Some? ==> err.Some?
    {
      pos := pos + 1;
      var r := Int(data[pos]);
      v := r.0;
      if r.1.Some? {
        err := r.1;
      }
    }

    /** `NextString`: advances one position; the string cast never fails, so `err` is kept. */
    method NextString(sprint: Dynamic -> string) returns (s: string)
      requires -1 <= pos && pos + 1 < |data|
      modifies this
      ensures pos == old(pos) + 1
      ensures s == String(data[pos], sprint).0
      ensures err == old(err)
    {
      pos := pos + 1;
      var r := String(data[pos], sprint);
      s := r.0;
      // the same error check as the other casts, written as one assignment
      err := if r.1.Some? then r.1 else err;
    }

    /** `NextFloat`: advances one position and casts; a failed cast is recorded in `err`. */
    method NextFloat() returns (f: Float64)
      requires -1 <= pos && pos + 1 < |data|
      modifies this
      ensures pos == old(pos) + 1
      ensures f == Float(data[pos]).0
      ensures err == if Float(data[pos]).1.Some? then Float(data[pos]).1 else old(err)
      ensures old(err).Some? ==> err.Some?
    {
      pos := pos + 1;
      var r := Float(data[pos]);
      f := r.0;
      if r.1.Some? {
        err := r.1;
      }
    }

    /** `Error()`: the error recorded so far, if any. */
    function Error(): Option<Error>
      reads this
    {
      err
    }
  }

  /** As written, `HasNext` is false on every iterator that has seen no cast error. */
  lemma HasNextNeedsAnError(it: Iterator)
    requires it.err == None
    ensures !it.HasNext()
  {
  }

  /**
   * The counterexample: a fresh iterator over one boxed int has an element
   * left, the intended test says so, and the written one denies it.
   */
  lemma FreshIteratorDisagrees(it: Iterator)
    requires it.pos == -1 && it.err == None && |it.data| == 1
    ensures it.HasNextIntended() && !it.HasNext()
  {
  }
}
