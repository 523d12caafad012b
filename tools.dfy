/** `parse_cooldown` (utils/tools.py): turns a cooldown's remaining seconds
    into the minutes and seconds shown to the user. */
module Tools {

  /** Python's `divmod(a, b)` for a positive divisor: the floor quotient and a
      remainder in `[0, b)`. Dafny's `/` and `%` agree with Python's for a
      positive divisor, negative dividends included. */
  function DivMod(a: int, b: int): (r: (int, int))
    requires b > 0
    ensures r.0 * b + r.1 == a
    ensures 0 <= r.1 < b
  {
    (a / b, a % b)
  }

  /** `parse_cooldown` on an integer: the hours quotient is computed and
      dropped, and the (minutes, seconds) of what is left are returned. */
  function ParseCooldown(retryAfter: int): (r: (int, int))
    ensures 0 <= r.0 < 60 && 0 <= r.1 < 60
    ensures 60 * r.0 + r.1 == retryAfter % 3600
  {
    var (hours, remainder) := DivMod(retryAfter, 3600);
    var (minutes, seconds) := DivMod(remainder, 60);
    (minutes, seconds)
  }

  /** Because the hours are discarded, a wait of an hour or more is reported
      as less than it is; below an hour it is reported exactly. */
  lemma CooldownDropsHours(retryAfter: int)
    ensures retryAfter >= 3600 ==> 60 * ParseCooldown(retryAfter).0 + ParseCooldown(retryAfter).1 < retryAfter
    ensures 0 <= retryAfter < 3600 ==> 60 * ParseCooldown(retryAfter).0 + ParseCooldown(retryAfter).1 == retryAfter
  {
  }

  /** Python's `int(x)` on a float: truncation toward zero. */
  function Truncate(x: real): (n: int)
    ensures 0.0 <= x ==> n as real <= x < n as real + 1.0
    ensures x < 0.0 ==> n as real - 1.0 < x <= n as real
  {
    if x >= 0.0 then x.Floor else -((-x).Floor)
  }

  /** `parse_cooldown` on a fractional number of seconds: the fraction is cut
      off before any arithmetic, so the result is that of the whole part. */
  function ParseCooldownReal(retryAfter: real): (r: (int, int))
    ensures 0.0 <= retryAfter ==> 60 * r.0 + r.1 == retryAfter.Floor % 3600
  {
    ParseCooldown(Truncate(retryAfter))
  }
}
