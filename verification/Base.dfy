/** Vocabulary shared by every manager of the store. */
module Base {

  datatype Option<+T> = None | Some(value: T)

  /** Lock tokens, wake tokens and lease tokens: opaque capabilities. */
  type Token = string

  /** The longest blocking wait, in seconds, that a caller is granted. */
  const MAX_WAIT_SECONDS: int := 50

  /** Clamps a requested wait to [0, MAX_WAIT_SECONDS]: over 50 seconds is 50. */
  function ClampWait(wait: int): (r: int)
    ensures 0 <= r <= MAX_WAIT_SECONDS
    ensures 0 <= wait <= 50 ==> r == wait
    ensures wait > 50 ==> r == 50
    ensures wait < 0 ==> r == 0
  {
    if wait < 0 then 0 else if wait > MAX_WAIT_SECONDS then MAX_WAIT_SECONDS else wait
  }

  function Larger(a: int, b: int): (r: int)
    ensures r >= a && r >= b && (r == a || r == b)
  {
    if a < b then b else a
  }

  /** Whole seconds left until `expiresAt`, never negative. */
  function SecsLeft(expiresAt: int, now: int): (r: int)
    ensures r >= 0
    ensures r > 0 <==> expiresAt > now
    ensures r > 0 ==> now + r == expiresAt
  {
    if expiresAt < now then 0 else expiresAt - now
  }
}
