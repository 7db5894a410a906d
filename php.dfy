/**
 * The few PHP language semantics the modelled code relies on: nullable
 * values, the truthiness of strings, and `strpos`.
 */
module Php {

  /** A nullable PHP value `?T`: `None` is `null`. */
  datatype Option<+T> = None | Some(value: T)

  /**
   * PHP truthiness of a string. `empty($s)`, `$s ?: $d` and `if ($s)` treat
   * exactly "" and "0" as false and every other string as true.
   */
  predicate Truthy(s: string) {
    s != "" && s != "0"
  }

  /** Truthiness of a nullable string: `null` is false. */
  predicate TruthyOpt(o: Option<string>) {
    o.Some? && Truthy(o.value)
  }

  /** `$s ?: null`: a falsy string becomes null, any other is kept as it is. */
  function OrNull(s: string): (r: Option<string>)
    ensures r.Some? <==> Truthy(s)
    ensures r.Some? ==> r.value == s
  {
    if Truthy(s) then Some(s) else None
  }

  /** `needle` occurs in `haystack` starting at index `i`. */
  predicate OccursAt(haystack: string, needle: string, i: int) {
    0 <= i && i + |needle| <= |haystack| && haystack[i..i + |needle|] == needle
  }

  /** `strpos($haystack, $needle) !== false`: a case-sensitive substring test. */
  predicate Contains(haystack: string, needle: string) {
    exists i :: 0 <= i <= |haystack| - |needle| && OccursAt(haystack, needle, i)
  }
}
