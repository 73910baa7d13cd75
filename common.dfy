/** Values shared by every part of the model: optional values, the outcome of a
    controller step, and the errors the application reports. */
module Common {

  /** Document and user identifiers (Mongo ObjectIds), compared as their strings. */
  type Id = string

  datatype Option<+T> = None | Some(value: T)

  /** An error as the application raises it. `Http` is an `ErrorResponse(message, code)`
      created by a controller or by the auth middleware; `TypeError` is thrown by the
      JavaScript runtime; the other kinds are raised by the database layer. All of them
      reach the (unmodelled) error handler unchanged. */
  datatype Error =
    | Http(code: int, message: string)
    | Validation(paths: set<string>)   // schema validation failed on these paths
    | DuplicateKey(field: string)      // a unique index rejected the insert
    | Cast(path: string)               // a query value could not be cast to the path's type
    | Query(message: string)           // the database refused the query
    | TypeError(message: string)       // a JavaScript TypeError thrown by a controller

  datatype Result<+T> = Ok(value: T) | Err(error: Error)

  /** JavaScript truthiness of an optional string: absent and "" are falsy. */
  predicate Truthy(s: Option<string>) {
    s.Some? && s.value != ""
  }

  predicate IsDigit(c: char) {
    '0' <= c <= '9'
  }

  function DigitChar(d: nat): (c: char)
    requires d < 10
    ensures IsDigit(c)
  {
    ('0' as int + d) as char
  }

  function DigitValue(c: char): (d: nat)
    requires IsDigit(c)
    ensures d < 10 && DigitChar(d) == c
  {
    c as int - '0' as int
  }

  lemma SeqAssoc(p: string, q: string, r: string)
    ensures p + (q + r) == (p + q) + r
  {
  }

  /** `parts.join(sep)`: the parts with the separator between neighbours. */
  function Join(parts: seq<string>, sep: string): string {
    if parts == [] then []
    else if |parts| == 1 then parts[0]
    else parts[0] + sep + Join(parts[1..], sep)
  }

  /** The decimal text of a natural number, without sign or leading zeros. */
  function NatString(n: nat): (r: string)
    ensures 1 <= |r|
    ensures forall i :: 0 <= i < |r| ==> IsDigit(r[i])
  {
    if n < 10 then [DigitChar(n)] else NatString(n / 10) + [DigitChar(n % 10)]
  }
}
