/** Option, Result and Outcome, with the exceptions the modelled code can raise. */
module Wrappers {

  datatype Option<+T> = None | Some(value: T)

  /**
   * The .NET exceptions that escape the auto-setup code. One thrown inside a method that is
   * called through reflection escapes wrapped, as the inner exception of a TargetInvocation.
   */
  datatype Error =
    | NullReference        // a member was dereferenced on null
    | InvalidOperation     // Enumerable.Single on a sequence whose length is not one
    | InvalidTypeArgument  // MethodInfo.MakeGenericMethod given a by-ref type
    | NotSupported         // Moq asked to intercept a member it cannot override
    | ArgumentNull         // a constructor argument was null
    | ArgumentMismatch     // a reflective call with arguments of the wrong types
    | TargetInvocation(inner: Error)  // MethodBase.Invoke: the invoked method threw `inner`

  /** A value, or the exception thrown instead of producing it. */
  datatype Result<+T> = Ok(value: T) | Err(error: Error)

  /** Completion of a void operation: it returned normally, or it threw. */
  datatype Outcome = Pass | Fail(error: Error)
}
