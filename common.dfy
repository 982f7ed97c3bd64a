/** Shared vocabulary: identifiers, optional values and handler outcomes. */
module Common {

  /** A document identifier (a MongoDB ObjectId in hex form) or a socket id. */
  type Id = string

  datatype Option<+T> = None | Some(value: T)

  /**
   * The outcome of a request handler: a value sent with status 200/201, or an
   * HTTP status code with the message the handler puts in its JSON body.
   */
  datatype Result<+T> = Ok(value: T) | Err(code: nat, msg: string)

  /** JavaScript `a || b` on strings: the empty string is the only falsy string. */
  function Or(a: string, b: string): string
  {
    if a != "" then a else b
  }

  /** JavaScript `opt || b` for a string that may be undefined. */
  function OrDefault(a: Option<string>, b: string): string
  {
    match a
    case Some(s) => Or(s, b)
    case None => b
  }

  /** True when an optional request field is present and truthy. */
  predicate Truthy(a: Option<string>)
  {
    a.Some? && a.value != ""
  }

  /** Mongoose's `required` validator on a string path: present and non-empty. */
  predicate Present(s: string)
  {
    s != ""
  }
}
