/** Optional values: a JavaScript field that may be `undefined`/`null`, or a Python `None`. */
module Base {

  datatype Option<+T> = None | Some(value: T)

  /** JavaScript truthiness of an optional string: absent and `""` are falsy. */
  predicate TruthyString(s: Option<string>) {
    s.Some? && s.value != ""
  }

  /** `s || ""` in JavaScript: the string when it is truthy, otherwise the empty string. */
  function OrEmpty(s: Option<string>): (r: string)
    ensures TruthyString(s) ==> r == s.value
    ensures !TruthyString(s) ==> r == ""
  {
    if TruthyString(s) then s.value else ""
  }

  /** 1 for true, 0 for false: for counting the positions where a condition holds. */
  function B(b: bool): (n: nat)
    ensures n <= 1 && (n == 1 <==> b)
  {
    if b then 1 else 0
  }
}
