/** Values shared by the whole model: the optional value, the error signals the
    session can raise, and the result of an operation that may raise one. */
module Common {

  /** Python's `None` or a present value. */
  datatype Option<+T> = None | Some(value: T)

  /** The exceptions the session lets propagate to its caller. */
  datatype Error =
    | Timeout           // pexpect.TIMEOUT: the awaited pattern never appeared
    | NotConnected      // AttributeError: `self.conn` is still `None`
    | ConnectionClosed  // the terminal process was closed by `__exit__`
    | LabelNotFound     // ValueError from `list.index`
    | IndexOutOfRange   // IndexError: nothing follows the label

  /** A value or the error that was raised instead of producing it. */
  datatype Result<+T> = Ok(value: T) | Err(error: Error)

  /** Python's `xs.index(x)`: the position of the first occurrence of `x`,
      or `None` where Python raises ValueError. */
  function FirstIndex<T(==)>(xs: seq<T>, x: T): (r: Option<nat>)
    ensures r.None? <==> x !in xs
    ensures r.Some? ==> r.value < |xs| && xs[r.value] == x && x !in xs[..r.value]
  {
    if |xs| == 0 then None
    else if xs[0] == x then Some(0)
    else
      match FirstIndex(xs[1..], x)
      case None => None
      case Some(i) =>
        assert xs[1..][..i] == xs[1..i + 1];
        Some(i + 1)
  }

  /** Concatenation regroups freely. */
  lemma Associative<T>(x: seq<T>, y: seq<T>, z: seq<T>)
    ensures x + (y + z) == x + y + z
  {
  }

  /** Concatenation regroups freely, five pieces at a time. */
  lemma Regroup<T>(a: seq<T>, x: seq<T>, y: seq<T>, z: seq<T>, b: seq<T>)
    ensures a + x + y + z + b == a + ((x + y + z) + b)
  {
  }
}
