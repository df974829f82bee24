/** Values shared by every part of the auction model. */
module Common {

  datatype Option<+T> = None | Some(value: T)

  /** Lifecycle of a product, as both the Go backend and the TypeScript front end spell it. */
  datatype ProductStatus = NotStarted | Active | Ended

  /** The wire spelling of a status. */
  function StatusName(s: ProductStatus): string
  {
    match s
    case NotStarted => "not_started"
    case Active => "active"
    case Ended => "ended"
  }

  /** Reads a wire spelling back; any other text is not a status. */
  function StatusFromName(name: string): (r: Option<ProductStatus>)
    ensures r.Some? ==> StatusName(r.value) == name
  {
    if name == "not_started" then Some(NotStarted)
    else if name == "active" then Some(Active)
    else if name == "ended" then Some(Ended)
    else None
  }

  lemma StatusNameRoundTrip(s: ProductStatus)
    ensures StatusFromName(StatusName(s)) == Some(s)
  {
  }

  function Max(a: real, b: real): real
  {
    if a >= b then a else b
  }

  function MaxInt(a: int, b: int): int
  {
    if a >= b then a else b
  }

  function MinInt(a: int, b: int): int
  {
    if a <= b then a else b
  }

  /** Rounds half away from zero, as Go's math.Round does. */
  function RoundHalfAway(y: real): (n: int)
    ensures -0.5 <= n as real - y <= 0.5
  {
    if y >= 0.0 then (y + 0.5).Floor else -((-y + 0.5).Floor)
  }
}
