/** Optional values, the Java exceptions the modelled code throws, and the
    outcome of a call that either returns a value or throws. */
module Exceptions {

  /** A Java reference that may be null. */
  datatype Option<+T> = None | Some(value: T)

  /** The exceptions raised by the modelled code. */
  datatype Exception =
      /** OVal's build(): the named builder fields broke their constraints. */
    | ConstraintsViolated(fields: set<string>)
      /** A null where the code dereferences or stores into a null-hostile collection. */
    | NullPointer
      /** A cast to a type the object does not have. */
    | ClassCast
      /** A list read at an index past its end. */
    | IndexOutOfBounds(index: nat)
      /** Guava's ImmutableMap.Builder.build() on two entries with the same key. */
    | DuplicateKey(key: string)
      /** The query executor's ExecutionException with its list of reasons. */
    | Execution(errors: seq<string>)

  /** A call that returned `value` or threw `error`. */
  datatype Outcome<+T> = Ok(value: T) | Err(error: Exception)
}
