/** What a tool call yields: a value, or the exception the handler throws. */
module Results {

  /** The two ways the handler fails: it throws `new Error(message)` itself,
      or it reads a property of an argument the request does not carry
      (a `TypeError`, raised by the JavaScript engine; the model tags that
      failure with the missing argument's key). */
  datatype Failure = Raised(message: string) | MissingArgument(argument: string)

  datatype Result<T> = Ok(value: T) | Thrown(failure: Failure)
}
