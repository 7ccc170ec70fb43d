/** The few JavaScript value rules the configuration code relies on. */
module Js {
  import opened Wrappers

  /** A string-or-undefined is truthy when it is present and non-empty. */
  predicate Truthy(o: Option<string>) {
    o.Some? && o.value != ""
  }

  /** `o || fallback` for a string-or-undefined. */
  function StringOr(o: Option<string>, fallback: string): string {
    if Truthy(o) then o.value else fallback
  }

  /** `o || fallback` for a number-or-undefined: undefined and 0 are falsy (NaN is not modelled). */
  function NumberOr(o: Option<int>, fallback: int): int {
    if o.Some? && o.value != 0 then o.value else fallback
  }

  /** `o ?? fallback`: only undefined (or null) falls back. */
  function Nullish(o: Option<int>, fallback: int): int {
    if o.Some? then o.value else fallback
  }

  /** How a string-or-undefined renders inside a template literal `${o}`. */
  function Render(o: Option<string>): string {
    if o.Some? then o.value else "undefined"
  }

}
