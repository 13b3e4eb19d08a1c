/** Small value types shared by the generator models. */
module Common {

  /** A value that may be absent: the source's null shared pointers and empty functors. */
  datatype Option<T> = None | Some(value: T)

  /** `count` copies of `x`. */
  function Repeat<T>(x: T, count: nat): (r: seq<T>)
    ensures |r| == count
    ensures forall i :: 0 <= i < count ==> r[i] == x
  {
    if count == 0 then [] else Repeat(x, count - 1) + [x]
  }
}
