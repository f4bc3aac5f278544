/**
  The two pieces of Swift's semantics that the detail screen's arithmetic
  depends on: the `%` operator on `Int`, which truncates toward zero, and
  array subscripting, which stops the program (a runtime trap) when the
  index is out of bounds.
 */
module SwiftRuntime {

  /** The outcome of evaluating a Swift expression that may trap. */
  datatype Checked<+T> = Ok(value: T) | Trap

  /**
    Swift's `a % 12` on `Int`, the only divisor the detail screen uses: the
    remainder of the division truncated toward zero, so its sign follows
    the dividend. (Dafny's own `%` is Euclidean and never negative.)
   */
  function Rem12(a: int): (r: int)
    ensures a >= 0 ==> 0 <= r < 12
    ensures a < 0 ==> -12 < r <= 0
    ensures (a - r) % 12 == 0
  {
    if a >= 0 then a % 12 else -((-a) % 12)
  }

  /** Swift's `s[i]`: the element when `i` is a valid index, a trap otherwise. */
  function Subscript<T>(s: seq<T>, i: int): (r: Checked<T>)
    ensures r.Ok? <==> 0 <= i < |s|
    ensures r.Ok? ==> r.value == s[i]
  {
    if 0 <= i < |s| then Ok(s[i]) else Trap
  }
}
