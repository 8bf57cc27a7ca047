/** The few JavaScript values and string operations the client code relies on. */
module Js {

  /** A value that may be `null`/`undefined`. */
  datatype Option<+T> = None | Some(value: T)

  /** What a `catch` clause receives: an `Error` object (with its `message`) or any other thrown value. */
  datatype Exception = ErrorObject(message: string) | NonError

  /** How an awaited promise settles. */
  datatype Settled<+T> = Resolved(value: T) | Rejected(reason: Exception)

  /** JavaScript truthiness of an optional string: neither absent nor empty. */
  predicate Truthy(s: Option<string>) {
    s.Some? && s.value != ""
  }

  /** `s || fallback` for an optional string. */
  function Or(s: Option<string>, fallback: string): string {
    if Truthy(s) then s.value else fallback
  }

  /** `err instanceof Error ? err.message : fallback` */
  function MessageOf(e: Exception, fallback: string): string {
    match e
    case ErrorObject(m) => m
    case NonError => fallback
  }

  function LowerChar(c: char): char {
    if 'A' <= c <= 'Z' then (c as int - 'A' as int + 'a' as int) as char else c
  }

  /** `toLowerCase()` restricted to the ASCII letters. */
  function Lower(s: string): (r: string)
    ensures |r| == |s|
    ensures forall i :: 0 <= i < |s| ==> r[i] == LowerChar(s[i])
  {
    seq(|s|, i requires 0 <= i < |s| => LowerChar(s[i]))
  }

  /** Lower-casing twice is lower-casing once. */
  lemma LowerIdempotent(s: string)
    ensures Lower(Lower(s)) == Lower(s)
  {
  }

  predicate StartsWith(s: string, prefix: string) {
    |prefix| <= |s| && s[..|prefix|] == prefix
  }

  /** `s.includes(sub)`: `sub` occurs in `s` at some position. */
  predicate Contains(s: string, sub: string) {
    StartsWith(s, sub) || (s != [] && Contains(s[1..], sub))
  }

  /** Every character of a string that `s` contains occurs in `s`. */
  lemma {:induction false} ContainsChars(s: string, sub: string, c: char)
    requires Contains(s, sub) && c in sub
    ensures c in s
  {
    if StartsWith(s, sub) {
      assert c in s[..|sub|];
    } else {
      ContainsChars(s[1..], sub, c);
    }
  }

  /** A string lacking some character of `sub` does not contain `sub`. */
  lemma MissingCharRefutes(s: string, sub: string, c: char)
    requires c in sub && c !in s
    ensures !Contains(s, sub)
  {
    if Contains(s, sub) {
      ContainsChars(s, sub, c);
    }
  }

  function DigitChar(d: nat): char
    requires d < 10
  {
    "0123456789"[d]
  }

  function NatToString(n: nat): string {
    if n < 10 then [DigitChar(n)] else NatToString(n / 10) + [DigitChar(n % 10)]
  }

  /** The decimal text a template literal produces for an integer. */
  function IntToString(n: int): string {
    if n < 0 then "-" + NatToString(-n) else NatToString(n)
  }
}
