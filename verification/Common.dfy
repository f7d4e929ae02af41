/** Small vocabulary shared by the models. */
module Common {
  datatype Option<+T> = None | Some(value: T)

  function Max(a: int, b: int): int {
    if a < b then b else a
  }

  function Min(a: int, b: int): int {
    if a < b then a else b
  }

  function MaxReal(a: real, b: real): real {
    if a < b then b else a
  }

  /** An address of the network layer. */
  type Ip = nat

  // Times of AODV, in microseconds
  const MILLISECOND := 1000.0
  const NET_DIAMETER := 35
  const NODE_TRAVERSAL_TIME := 40.0 * MILLISECOND
  const NET_TRAVERSAL_TIME := 2.0 * NODE_TRAVERSAL_TIME * 35.0

  lemma MulMonotone(x: real, y: real, d: real)
    requires x <= y && d > 0.0
    ensures x * d <= y * d
  {
  }

  lemma DivMonotone(x: real, y: real, d: real)
    requires x <= y && d > 0.0
    ensures x / d <= y / d
  {
    assert (x / d) * d == x && (y / d) * d == y;
  }
}
