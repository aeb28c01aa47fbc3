/** Small value types shared by both cooking-game implementations and the Tetris core. */
module Common {

  /** JavaScript `undefined`/`null` and Python `None`, or a present value. */
  datatype Option<T> = None | Some(value: T)

  /** A pointer position in logical canvas coordinates, already rescaled by the caller. */
  datatype Point = Point(x: real, y: real)

  /** The three-valued pointer lifecycle every input handler receives. */
  datatype InputType = Start | Move | End

  function Abs(r: real): (a: real)
    ensures a >= 0.0 && (a == r || a == -r)
  {
    if r < 0.0 then -r else r
  }

  function Min(a: int, b: int): (m: int)
    ensures m <= a && m <= b && (m == a || m == b)
  {
    if a <= b then a else b
  }

  function Max(a: int, b: int): (m: int)
    ensures m >= a && m >= b && (m == a || m == b)
  {
    if a >= b then a else b
  }

  /** `a` is `b` with some elements removed: the order of what is kept is unchanged. */
  predicate Subsequence<T(==)>(a: seq<T>, b: seq<T>)
    decreases |b|
  {
    if a == [] then true
    else if b == [] then false
    else (a[0] == b[0] && Subsequence(a[1..], b[1..])) || Subsequence(a, b[1..])
  }
}
