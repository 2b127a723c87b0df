/** JavaScript value conventions the backend relies on: a request field may be
    `undefined`, and the handlers merge fields either with `||` (a falsy value
    falls back to the stored one) or with `!== undefined` (any supplied value,
    even `''` or `0`, replaces the stored one). */
module Js {

  /** A value that may be `undefined` (absent from the JSON body or record). */
  datatype Option<+T> = None | Some(value: T)

  /** JavaScript truthiness of a string that may be `undefined`: `''` is falsy. */
  predicate Truthy(v: Option<string>) {
    v.Some? && v.value != ""
  }

  /** JavaScript truthiness of a number that may be `undefined`: `0` is falsy. */
  predicate TruthyNum(v: Option<int>) {
    v.Some? && v.value != 0
  }

  /** `supplied || current` for a string field. */
  function Or(supplied: Option<string>, current: string): string {
    if Truthy(supplied) then supplied.value else current
  }

  /** `supplied || current` for a string field that may itself be `undefined`. */
  function OrOpt(supplied: Option<string>, current: Option<string>): Option<string> {
    if Truthy(supplied) then supplied else current
  }

  /** `supplied || current` for a number field. */
  function OrNum(supplied: Option<int>, current: int): int {
    if TruthyNum(supplied) then supplied.value else current
  }

  /** `supplied || current` for a number field that may itself be `undefined`. */
  function OrNumOpt(supplied: Option<int>, current: Option<int>): Option<int> {
    if TruthyNum(supplied) then supplied else current
  }

  /** `supplied !== undefined ? supplied : current`. */
  function Defined<T>(supplied: Option<T>, current: T): T {
    if supplied.Some? then supplied.value else current
  }
}
