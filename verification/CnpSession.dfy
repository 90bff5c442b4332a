/** Hard limits every negotiated line speed is held to. */
module CnpSession {
  import opened Numbers

  const SPEED_MIN_PCT := 40
  const SPEED_MAX_PCT := 100

  function ClampSpeed(pct: int): (r: int)
    ensures SPEED_MIN_PCT <= r <= SPEED_MAX_PCT
    ensures SPEED_MIN_PCT <= pct <= SPEED_MAX_PCT ==> r == pct
    ensures pct < SPEED_MIN_PCT ==> r == SPEED_MIN_PCT
    ensures pct > SPEED_MAX_PCT ==> r == SPEED_MAX_PCT
  {
    Max(SPEED_MIN_PCT, Min(SPEED_MAX_PCT, pct))
  }
}
