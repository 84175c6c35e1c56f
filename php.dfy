/** The PHP values the service reads from its configuration and from its queue
    jobs, and the loose-typing rules of PHP that its branches depend on. */
module Php {

  datatype Option<+T> = None | Some(value: T)

  /** A value held in a PHP array. Floats are kept as their literal text (the
      service only passes them on); arrays, objects and closures are opaque. */
  datatype Value =
    | Null
    | Bool(b: bool)
    | Int(i: int)
    | Str(s: string)
    | Float(literal: string)
    | Opaque(id: nat)

  /** A string in a PHP condition: only "" and "0" are false. */
  predicate StrTruthy(s: string)
  {
    s != "" && s != "0"
  }

  /** An int in a PHP condition: only 0 is false, so a negative int is true. */
  predicate IntTruthy(i: int)
  {
    i != 0
  }

  /** `$a[$k]` on an array: an absent key reads as null (PHP only warns). */
  function Index(a: map<string, Value>, k: string): Value
  {
    if k in a then a[k] else Null
  }

  /** `$a[$k] ?? $d`: the stored value unless the key is absent or holds null. */
  function Coalesce(a: map<string, Value>, k: string, d: Value): Value
  {
    if k in a && a[k] != Null then a[k] else d
  }

  /** `array_merge($a, $b)` on arrays with string keys: the keys of both, a key
      of `$b` overwriting the same key of `$a`. */
  function ArrayMerge(a: map<string, Value>, b: map<string, Value>): map<string, Value>
  {
    a + b
  }
}
