/** Shared vocabulary of the model: snowflake ids, Python's optional values and
    exceptions, decimal rendering and parsing of integers (`str(n)` and
    `int(s)`), and the truthiness tests the handlers apply to values that may
    be NULL or empty. */
module Base {

  /** A Discord snowflake (user, guild, channel or role id). */
  type Id = nat

  datatype Option<T> = None | Some(value: T)

  /** The Python exceptions that matter to the control flow of the handlers. */
  datatype Exc = TypeError | ValueError | AttributeError | Forbidden | NotFound | HttpError

  /** A value, or the exception Python raises instead of returning it. */
  datatype Result<T> = Ok(value: T) | Raised(exc: Exc)

  /** discord.py's exception hierarchy: `Forbidden` and `NotFound` are
      subclasses of `HTTPException`. */
  predicate IsHttpException(e: Exc) {
    e == Forbidden || e == NotFound || e == HttpError
  }

  /** Python truthiness of an optional string: `None` and `""` are false. */
  predicate TruthyStr(s: Option<string>) {
    s.Some? && s.value != ""
  }

  /** Python truthiness of an optional integer: `None` and `0` are false. */
  predicate TruthyInt(n: Option<int>) {
    n.Some? && n.value != 0
  }

  /** Python truthiness of an optional id column: `None` and `0` are false. */
  predicate TruthyId(n: Option<Id>) {
    n.Some? && n.value != 0
  }

  /** `s.startswith(p)` */
  predicate StartsWith(s: string, p: string) {
    |p| <= |s| && s[..|p|] == p
  }

  /** `s[k:]` for a non-negative k: empty when k runs past the end. */
  function Drop(s: string, k: nat): (r: string)
    ensures k <= |s| ==> r == s[k..]
    ensures |s| <= k ==> r == ""
  {
    if k <= |s| then s[k..] else ""
  }

  predicate IsDigit(c: char) {
    '0' <= c <= '9'
  }

  predicate AllDigits(s: string) {
    forall i :: 0 <= i < |s| ==> IsDigit(s[i])
  }

  function DigitChar(d: nat): (c: char)
    requires d < 10
    ensures IsDigit(c) && c as int - '0' as int == d
  {
    (d + '0' as int) as char
  }

  /** `str(n)` for a non-negative integer. */
  function NatToString(n: nat): (s: string)
    ensures |s| >= 1 && AllDigits(s)
    decreases n
  {
    if n < 10 then [DigitChar(n)] else NatToString(n / 10) + [DigitChar(n % 10)]
  }

  /** `str(n)` for any integer. */
  function IntToString(n: int): string {
    if n < 0 then "-" + NatToString(-n) else NatToString(n)
  }

  /** The value of a string of decimal digits, most significant first. */
  function DigitsValue(s: string): nat
    requires AllDigits(s)
  {
    if s == [] then 0
    else DigitsValue(s[..|s| - 1]) * 10 + (s[|s| - 1] as int - '0' as int)
  }

  /** `int(s)` on a string: defined for a non-empty run of decimal digits,
      otherwise `None` (Python raises `ValueError`). */
  function ParseInt(s: string): (r: Option<nat>)
    ensures r.Some? <==> |s| >= 1 && AllDigits(s)
  {
    if |s| >= 1 && AllDigits(s) then Some(DigitsValue(s)) else None
  }

  /** `int(str(n)) == n`: rendering a role or user id and parsing it back gives
      the id again. */
  lemma {:induction false} ParseNatToString(n: nat)
    ensures ParseInt(NatToString(n)) == Some(n)
    decreases n
  {
    var s := NatToString(n);
    if n >= 10 {
      ParseNatToString(n / 10);
      assert s[..|s| - 1] == NatToString(n / 10);
      assert s[|s| - 1] == DigitChar(n % 10);
      assert DigitsValue(s) == DigitsValue(NatToString(n / 10)) * 10 + n % 10;
    } else {
      assert s[..|s| - 1] == [];
    }
  }

  /** Two different ids never render to the same string. */
  lemma NatToStringInjective(a: nat, b: nat)
    requires NatToString(a) == NatToString(b)
    ensures a == b
  {
    ParseNatToString(a);
    ParseNatToString(b);
  }
}
