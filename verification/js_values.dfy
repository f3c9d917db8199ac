/**
 * JavaScript value shapes the client code relies on: the optional/nullable
 * parameter (`x?: T`, which may also arrive as `null`), the `string | null`
 * result of a storage lookup, and the two defaulting operators `??` and `||`.
 */
module JsValues {

  /** A value that may be `undefined`, `null`, or defined. */
  datatype Nullish<+T> = Undefined | Null | Defined(value: T)

  /** The `string | null` result of `Storage.getItem`. */
  datatype Option<+T> = None | Some(value: T)

  /** `x ?? d`: only `undefined` and `null` are replaced by the default. */
  function Coalesce<T>(x: Nullish<T>, d: T): (r: T)
    ensures x.Defined? ==> r == x.value
    ensures x.Undefined? || x.Null? ==> r == d
  {
    match x
    case Defined(v) => v
    case _ => d
  }

  /** JavaScript truthiness of an optional string: `""`, `undefined` and `null` are falsy. */
  predicate IsTruthy(x: Nullish<string>)
  {
    x.Defined? && x.value != ""
  }

  /** `x || d` on an optional string: every falsy value is replaced by the default. */
  function OrElse(x: Nullish<string>, d: string): (r: string)
    ensures x.Defined? && x.value != "" ==> r == x.value
    ensures x.Undefined? || x.Null? || x == Defined("") ==> r == d
  {
    if IsTruthy(x) then x.value else d
  }

  /** `??` keeps every defined value, including the falsy ones (`0`, `""`). */
  lemma CoalesceKeepsDefined<T>(v: T, d: T)
    ensures Coalesce(Defined(v), d) == v
  {
  }

  /** `??` falls back to the default exactly when the value is missing. */
  lemma CoalesceDefaultsMissing<T>(x: Nullish<T>, d: T)
    requires !x.Defined?
    ensures Coalesce(x, d) == d
  {
  }

  /**
   * The two operators disagree on a string exactly when it is the defined
   * empty string and the default is not itself empty: `"" ?? d` is `""`
   * while `"" || d` is `d`.
   */
  lemma CoalesceVersusOrElse(x: Nullish<string>, d: string)
    ensures Coalesce(x, d) != OrElse(x, d) <==> x == Defined("") && d != ""
  {
  }
}
