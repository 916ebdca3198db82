/** Shared vocabulary: optional values and JavaScript truthiness. */
module Common {

  datatype Option<T> = None | Some(value: T)

  /** A JavaScript number read from a payload is truthy when it is present and not 0. */
  predicate Truthy(o: Option<int>)
  {
    o.Some? && o.value != 0
  }

  /** A JavaScript string read from a payload is truthy when it is present and not empty. */
  predicate TruthyStr(o: Option<string>)
  {
    o.Some? && o.value != ""
  }

  /** `a || b` on optional numbers. */
  function OrInt(a: Option<int>, b: Option<int>): Option<int>
  {
    if Truthy(a) then a else b
  }

  /** `a || b` on optional strings. */
  function OrStr(a: Option<string>, b: Option<string>): Option<string>
  {
    if TruthyStr(a) then a else b
  }
}
