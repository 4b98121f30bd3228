/** Shared vocabulary of the backend model: optional values, the outcome of a
    service call that may throw, the HTTP status classes the controllers use,
    and the small string helpers (ASCII case mapping, decimal rendering,
    suffix tests) that key building and file filtering rely on. */
module Common {

  datatype Option<+T> = None | Some(value: T)

  /** The HTTP status classes raised as NestJS HttpExceptions. */
  datatype Status =
    | BadRequest
    | Unauthorized
    | NotFound
    | Conflict
    | InternalServerError
    | ServiceUnavailable

  /** The numeric code NestJS sends for each status. */
  function Code(s: Status): (c: int)
    ensures 400 <= c < 600
    ensures c < 500 <==> s in {BadRequest, Unauthorized, NotFound, Conflict}
  {
    match s
    case BadRequest => 400
    case Unauthorized => 401
    case NotFound => 404
    case Conflict => 409
    case InternalServerError => 500
    case ServiceUnavailable => 503
  }

  /** What a thrown value is, as far as the controllers can tell: an
      HttpException carrying a status, or any other Error. */
  datatype ServiceError =
    | HttpException(status: Status)
    | PlainError(reason: string)

  /** The status an error reaches the client with: an HttpException keeps its
      own, anything else becomes 500. */
  function StatusOf(e: ServiceError): (s: Status)
    ensures e.HttpException? ==> s == e.status
    ensures e.PlainError? ==> s == InternalServerError
  {
    match e
    case HttpException(status) => status
    case PlainError(_) => InternalServerError
  }

  /** What an endpoint answers: a response body, or the status of the
      HttpException it throws. */
  datatype Reply<+T> = Respond(body: T) | Fail(status: Status)

  /** One outbound HTTP exchange as the caller sees it: a 2xx body, or a
      failure (network error or non-2xx status, with the status when known). */
  datatype Http<+B> = Body(data: B) | Failure(status: Option<int>)

  /** The outcome of an async service call: a returned value or a thrown error. */
  datatype Raised<+T> = Returned(value: T) | Threw(error: ServiceError)

  /** JavaScript truthiness of an optional string: undefined, null and "" are falsy. */
  predicate Truthy(s: Option<string>) {
    s.Some? && s.value != ""
  }

  /** Upper-casing of one character, as `toUpperCase` does on ASCII letters. */
  function UpperChar(c: char): char {
    if 'a' <= c <= 'z' then (c as int - 32) as char else c
  }

  /** Lower-casing of one character, on ASCII letters. */
  function LowerChar(c: char): char {
    if 'A' <= c <= 'Z' then (c as int + 32) as char else c
  }

  function Upper(s: string): (r: string)
    ensures |r| == |s|
    ensures forall i :: 0 <= i < |s| ==> r[i] == UpperChar(s[i])
  {
    if s == [] then [] else [UpperChar(s[0])] + Upper(s[1..])
  }

  function Lower(s: string): (r: string)
    ensures |r| == |s|
    ensures forall i :: 0 <= i < |s| ==> r[i] == LowerChar(s[i])
  {
    if s == [] then [] else [LowerChar(s[0])] + Lower(s[1..])
  }

  /** Upper-casing twice is upper-casing once: a normalised ticker is its own normal form. */
  lemma UpperIdempotent(s: string)
    ensures Upper(Upper(s)) == Upper(s)
  {
    assert forall i :: 0 <= i < |s| ==> UpperChar(UpperChar(s[i])) == UpperChar(s[i]);
  }

  /** Lower-casing does not depend on the case the input was written in. */
  lemma LowerOfUpper(s: string)
    ensures Lower(Upper(s)) == Lower(s)
  {
    assert forall i :: 0 <= i < |s| ==> LowerChar(UpperChar(s[i])) == LowerChar(s[i]);
  }

  function DigitChar(d: nat): char
    requires d < 10
  {
    "0123456789"[d]
  }

  /** Decimal rendering of a natural number, without leading zeros. */
  function NatToString(n: nat): (r: string)
    ensures |r| > 0
    ensures forall i :: 0 <= i < |r| ==> '0' <= r[i] <= '9'
    decreases n
  {
    if n < 10 then [DigitChar(n)] else NatToString(n / 10) + [DigitChar(n % 10)]
  }

  /** Distinct numbers render differently. */
  lemma {:induction false} NatToStringInjective(a: nat, b: nat)
    requires NatToString(a) == NatToString(b)
    ensures a == b
    decreases a
  {
    var d := "0123456789";
    assert forall i, j | 0 <= i < j < 10 :: d[i] != d[j];
    if a >= 10 && b >= 10 {
      var sa := NatToString(a);
      assert sa[..|sa| - 1] == NatToString(a / 10);
      assert sa[|sa| - 1] == DigitChar(a % 10);
      var sb := NatToString(b);
      assert sb[..|sb| - 1] == NatToString(b / 10);
      assert sb[|sb| - 1] == DigitChar(b % 10);
      NatToStringInjective(a / 10, b / 10);
    }
  }

  /** How a template literal `${n}` renders an integer: a minus sign exactly
      for a negative number, then decimal digits. */
  function IntToString(n: int): (r: string)
    ensures |r| > 0
    ensures r[0] == '-' <==> n < 0
    ensures n >= 0 ==> '0' <= r[0] <= '9'
    ensures forall i | 0 < i < |r| :: '0' <= r[i] <= '9'
  {
    if n < 0 then
      var digits := NatToString(-n);
      assert forall i | 0 < i < |digits| + 1 :: ("-" + digits)[i] == digits[i - 1];
      "-" + digits
    else NatToString(n)
  }

  predicate HasPrefix(s: string, p: string) {
    |p| <= |s| && s[..|p|] == p
  }

  predicate EndsWith(s: string, suffix: string) {
    |suffix| <= |s| && s[|s| - |suffix|..] == suffix
  }

  /** The first position of `s` whose element satisfies `p`: what a repository
      `findOne` on a column returns when at most one row matches. */
  function FirstIndex<T>(s: seq<T>, p: T -> bool): (r: Option<nat>)
    ensures r.Some? ==> r.value < |s| && p(s[r.value])
    ensures r.Some? ==> forall j :: 0 <= j < r.value ==> !p(s[j])
    ensures r.None? <==> forall j :: 0 <= j < |s| ==> !p(s[j])
  {
    if s == [] then None
    else if p(s[0]) then Some(0)
    else match FirstIndex(s[1..], p)
      case None => None
      case Some(i) => Some(i + 1)
  }

  /** Whether some element satisfies `p`; `!!findOne(...)` in the source. */
  predicate Exists<T>(s: seq<T>, p: T -> bool) {
    FirstIndex(s, p).Some?
  }
}
