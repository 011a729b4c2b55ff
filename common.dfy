/** Small shared vocabulary: nullable values, the Mathf clamps the scripts use,
    and opaque identities for engine assets (sprites). */
module Common {

  /** A C# reference or string that may be null. */
  datatype Option<T> = None | Some(value: T)

  /** An engine sprite asset, known only by its identity. */
  datatype Sprite = Sprite(id: nat)

  /** Mathf.Min on ints. */
  function Min(a: int, b: int): (r: int)
    ensures r <= a && r <= b
    ensures r == a || r == b
  {
    if a <= b then a else b
  }

  /** Mathf.Max on ints. */
  function Max(a: int, b: int): (r: int)
    ensures r >= a && r >= b
    ensures r == a || r == b
  {
    if a >= b then a else b
  }

  /** Sign of a horizontal axis value, as GetAxisRaw reports it (-1, 0 or 1). */
  function Sign(x: int): (r: int)
    ensures -1 <= r <= 1
    ensures (r > 0 <==> x > 0) && (r < 0 <==> x < 0)
  {
    if x > 0 then 1 else if x < 0 then -1 else 0
  }

  /** A C# null string interpolated into text reads as the empty string. */
  function OrEmpty(s: Option<string>): (r: string)
    ensures s.Some? ==> r == s.value
    ensures s.None? ==> r == ""
  {
    match s
    case None => ""
    case Some(v) => v
  }
}
