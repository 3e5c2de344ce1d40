/** Values of the form `number | ''` that the calculator's inputs hold, and the
    two ways the calculator reads them: as a number defaulting to 0
    (`typeof x === 'number' ? x : 0`) and as a JavaScript truth value. */
module Fields {

  /** `None` stands for the empty string `''` of an input field left blank
      (and, in a stored record, for a field that is missing altogether). */
  datatype Option<+T> = None | Some(value: T)

  /** The number a field holds, or 0 when it is blank. */
  function OrZero(x: Option<real>): real
  {
    match x
    case None => 0.0
    case Some(v) => v
  }

  /** JavaScript truthiness of `number | ''`: `''` and `0` are falsy. */
  predicate Truthy(x: Option<real>)
  {
    x.Some? && x.value != 0.0
  }
}
