/** The pieces of JavaScript semantics that lib/index.js leans on: reading an
    optional property, truthiness (`if (x)`, `x || y`), loose comparison with
    null (`x != null`), and the Boom error values it replies with. */
module JsValues {

  /** A property read from a JavaScript object: None stands for `undefined`
      (or `null`, or any other falsy value that is not a string). */
  datatype Option<+T> = None | Some(value: T)

  /** Truthiness of an optional string: `undefined`, `null` and "" are falsy,
      every other string is truthy. */
  predicate Truthy(v: Option<string>) {
    v.Some? && v.value != ""
  }

  /** `v || fallback` for a string-valued property. */
  function Or(v: Option<string>, fallback: string): (r: string)
    ensures Truthy(v) ==> r == v.value
    ensures !Truthy(v) ==> r == fallback
    ensures fallback != "" ==> r != ""
  {
    if Truthy(v) then v.value else fallback
  }

  /** The first argument of a Node-style callback, `err`, as far as the
      plugin inspects it. */
  datatype ErrValue =
    | Nullish                            // null or undefined
    | FalsyValue                         // false, 0, NaN or "": not null, yet falsy
    | Boom(status: nat, message: string) // an error built by Boom: `err.isBoom` is true
    | Raw(message: string)               // any other truthy value, an `Error` in practice
  {
    /** `if (err)` */
    predicate IsTruthy() {
      Boom? || Raw?
    }

    /** `err != null`: loose inequality holds for every value except null and undefined */
    predicate IsNonNull() {
      !Nullish?
    }
  }

  /** `Boom.badRequest(err)`: a pre-classified error with status 400. What
      message Boom gives it is Boom's own business; the model keeps the raw
      error's message but promises nothing about it. */
  function BadRequest(err: ErrValue): (b: ErrValue)
    requires err.Raw?
    ensures b.Boom? && b.status == 400
  {
    Boom(400, err.message)
  }

  /** The two error tests of the plugin disagree exactly on the falsy values
      that are not null: `if (err)` lets them through as success, while
      `err != null` treats them as a failure. */
  lemma ErrorTestsDiffer(err: ErrValue)
    ensures err.IsTruthy() ==> err.IsNonNull()
    ensures err.IsNonNull() && !err.IsTruthy() <==> err == FalsyValue
  {
  }
}
