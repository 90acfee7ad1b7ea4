/**
 * Small value types shared by the whole model: an optional value (`None` is a
 * missing value; each use says whether that is `undefined` only or also `null`),
 * the outcome of a step that may throw, and JavaScript truthiness of an optional string.
 */
module Common {

  datatype Option<+T> = None | Some(value: T)

  /** The outcome of an awaited call: its value, or the message of the error it threw. */
  datatype Result<+T> = Ok(value: T) | Err(error: string)

  /** `if (s)` in JavaScript, for a value that is a string or undefined/null:
      false for a missing value and for the empty string. */
  predicate Truthy(s: Option<string>) {
    s.Some? && s.value != ""
  }

  /** `a || b` on two optional strings: the first operand when it is truthy, otherwise the second. */
  function Or(a: Option<string>, b: Option<string>): (r: Option<string>)
    ensures Truthy(a) ==> r == a
    ensures !Truthy(a) ==> r == b
  {
    if Truthy(a) then a else b
  }

  /** Looking a key up in a JavaScript record: `undefined` when absent. */
  function Lookup(m: map<string, string>, k: string): (r: Option<string>)
    ensures r.Some? <==> k in m
    ensures r.Some? ==> r.value == m[k]
  {
    if k in m then Some(m[k]) else None
  }

  /** `s.startsWith(p)`. */
  predicate StartsWith(s: string, p: string) {
    |p| <= |s| && s[..|p|] == p
  }
}
