/** Values of the script language the model needs to talk about: a possibly
    undefined value, a computation that may throw, a Math.random() draw, and
    the truthiness rules behind the `x || d` idiom used throughout the code. */
module JsValues {

  /** A value that may be `undefined` (or `null`). */
  datatype Option<+T> = None | Some(value: T)

  /** A step that either yields its value or throws (a TypeError from reading a
      property of `undefined`, or an explicit `throw`). */
  datatype Outcome<+T> = Ok(value: T) | Thrown(error: string)

  /** One result of Math.random(): a real in [0, 1). */
  type Unit = u: real | 0.0 <= u < 1.0

  /** `Math.floor(u * n)`: an index into a list of length `n`, and 0 for an empty list. */
  function PickIndex(u: Unit, n: nat): (i: nat)
    ensures n > 0 ==> i < n
    ensures n == 0 ==> i == 0
  {
    (u * n as real).Floor
  }

  /** `s[i]`, which is `undefined` past the end. */
  function At<T>(s: seq<T>, i: nat): (r: Option<T>)
    ensures r.Some? <==> i < |s|
    ensures r.Some? ==> r.value == s[i]
  {
    if i < |s| then Some(s[i]) else None
  }

  /** `s[Math.floor(u * s.length)]`: undefined exactly when the list is empty. */
  function PickFrom<T>(s: seq<T>, u: Unit): (r: Option<T>)
    ensures r.None? <==> s == []
    ensures r.Some? ==> r.value in s
  {
    At(s, PickIndex(u, |s|))
  }

  /** `m[k]` for a dictionary, `undefined` when the key is absent. */
  function Lookup<K, V>(m: map<K, V>, k: K): (r: Option<V>)
    ensures r.Some? <==> k in m
    ensures r.Some? ==> r.value == m[k]
  {
    if k in m then Some(m[k]) else None
  }

  /** A string is truthy unless it is undefined or empty. */
  predicate Truthy(s: Option<string>) {
    s.Some? && s.value != ""
  }

  /** `s || d` on a string that may be undefined. */
  function OrElse(s: Option<string>, d: string): (r: string)
    ensures Truthy(s) ==> r == s.value
    ensures !Truthy(s) ==> r == d
  {
    if Truthy(s) then s.value else d
  }

  /** `x || 1` on a number that may be undefined: undefined and 0 both give 1. */
  function NumberOrOne(x: Option<real>): (r: real)
    ensures r != 0.0
    ensures x.Some? && x.value != 0.0 ==> r == x.value
    ensures x.None? || x.value == 0.0 ==> r == 1.0
  {
    if x.Some? && x.value != 0.0 then x.value else 1.0
  }

  /** A string value as a template literal or `+` renders it. */
  function Render(s: Option<string>): string {
    if s.Some? then s.value else "undefined"
  }

  /** `a + b` on two strings that may be undefined: one undefined operand
      renders as "undefined", two make the number NaN. */
  function Plus(a: Option<string>, b: Option<string>): (r: string)
    ensures a.Some? && b.Some? ==> r == a.value + b.value
    ensures a.None? && b.None? ==> r == "NaN"
  {
    if a.None? && b.None? then "NaN" else Render(a) + Render(b)
  }
}
