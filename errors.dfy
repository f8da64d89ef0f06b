/** The exceptions the core throws, and the result of an operation that
    either returns normally or throws one of them. */
module Errors {
  import opened Values

  datatype Error =
    /** IllegalIdentifierException("Invalid SQL identifier: " + identifier) */
    | IllegalIdentifier(identifier: string)
    /** IllegalStateException(message) */
    | IllegalState(message: string)
    /** UnsupportedOperationException(message) */
    | UnsupportedOperation(message: string)
    /** IllegalArgumentException(message) */
    | IllegalArgument(message: string)
    /** SQLException("Parameter count mismatch. Expected " + expected + " but got " + got) */
    | ParameterCountMismatch(expected: nat, got: nat)
    /** IllegalArgumentException("Unsupported type: " + t.getName()) from getSqlType */
    | UnsupportedSqlType(javaType: HostType)
    /** UnsupportedOperationException("Unsupported type: " + t.getName()) from reading a result set */
    | UnsupportedReadType(javaType: HostType)
    /** IllegalArgumentException from Enum.valueOf for a name that is not a constant */
    | NoEnumConstant(enumType: EnumType, name: string)
    /** IllegalArgumentException from UUID.fromString */
    | InvalidUuid(text: string)
    /** ClassCastException from a cast to UUID */
    | ClassCast(value: Value)
    /** The exception a default constructor, or its absence, raises */
    | InstantiationFailed(className: string)
    /** An exception raised inside code this model does not see (a custom converter) */
    | ForeignFailure(description: string)
    /** CannotInstanceException(clazz, cause) */
    | CannotInstance(className: string, cause: Error)

  datatype Result<+T> = Ok(value: T) | Err(error: Error) {
    predicate IsFailure() { Err? }

    function PropagateFailure<U>(): Result<U>
      requires Err?
    {
      Err(error)
    }

    function Extract(): T
      requires Ok?
    {
      value
    }
  }
}
