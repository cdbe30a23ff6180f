/** Small value types shared by the services: optional values, the outcome of a
    lookup guarded by existence and ownership, and decimal rendering of ids for
    the services' messages. */
module Common {

  datatype Option<+T> = None | Some(value: T) {
    function GetOr(default: T): T {
      match this
      case Some(v) => v
      case None => default
    }
  }

  /** What a service call that may throw NotFoundException or
      UnauthorizedException produces: the value, or which of the two it threw. */
  datatype Outcome<+T> = Ok(value: T) | NotFound | Unauthorized

  /** JavaScript truthiness of an optional number: `undefined` and 0 are falsy. */
  predicate TruthyNumber(n: Option<int>) {
    n.Some? && n.value != 0
  }

  /** JavaScript truthiness of an optional string: `undefined` and "" are falsy. */
  predicate TruthyText(s: Option<string>) {
    s.Some? && s.value != ""
  }

  function Digit(d: nat): (c: char)
    requires d < 10
    ensures '0' <= c <= '9'
  {
    "0123456789"[d]
  }

  /** Decimal text of a natural number, as a template literal renders it. */
  function NaturalText(n: nat): (s: string)
    ensures |s| > 0
    ensures forall i :: 0 <= i < |s| ==> '0' <= s[i] <= '9'
  {
    if n < 10 then [Digit(n)] else NaturalText(n / 10) + [Digit(n % 10)]
  }

  /** Decimal text of an integer, with a leading '-' for negative values. */
  function NumberText(n: int): (s: string)
    ensures |s| > 0
    ensures n < 0 <==> s[0] == '-'
  {
    if n < 0 then "-" + NaturalText(-n) else NaturalText(n)
  }
}
