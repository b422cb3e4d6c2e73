/** Option and Result wrappers, and the Java exceptions that the modelled code raises. */
module Results {

  /** A Java reference that may be null. */
  datatype Option<+T> = None | Some(value: T) {
    function GetOr(default: T): T {
      if Some? then value else default
    }
  }

  /** The exceptions of the modelled code, by Java class. */
  datatype Error =
    | NullPointer(message: string)      // NullPointerException (Preconditions.checkNotNull, null dereference)
    | IllegalArgument(message: string)  // IllegalArgumentException (Preconditions.checkArgument)
    | Sql(message: string)              // SQLException from a collaborator
    | ClassCast(message: string)        // ClassCastException (a failed downcast)

  /** A value, or the exception that was thrown instead. */
  datatype Result<+T> = Success(value: T) | Failure(error: Error)
}
