/** Option and result types shared by every module of the model, and the one JavaScript
    notion the source leans on everywhere: truthiness of a value that may be missing. */
module Wrappers {

  datatype Option<T> = None | Some(value: T)

  datatype Result<T, E> = Ok(value: T) | Err(error: E)

  /** A string field of a request body or of a form: missing (`undefined`) and the empty
      string are falsy, every other string is truthy. */
  predicate Truthy(s: Option<string>) {
    s.Some? && s.value != ""
  }
}
