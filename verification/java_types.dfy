/**
 The few Java notions the logger's behaviour depends on: references that may
 be null, string concatenation of a possibly-null string, and the runtime
 exceptions the logger can raise. Exceptions are values here: an operation
 that would throw returns the exception instead of a result.
 */
module JavaTypes {

  /** A Java reference of type T that may be null. */
  datatype Nullable<+T> = Null | NonNull(value: T)

  /** A Java `String`, which may be null. */
  type JString = Nullable<string>

  /** A Java `String[]`: the array itself may be null, and so may each element. */
  type JStringArray = Nullable<seq<JString>>

  /** The runtime exceptions the logger can raise. */
  datatype Exception =
    | EmptyStack        // java.util.EmptyStackException from Stack.pop
    | IndexOutOfBounds  // ArrayIndexOutOfBoundsException
    | NullPointer       // NullPointerException

  /** Either a value or the exception raised while computing it. */
  datatype Result<+T> = Ok(value: T) | Err(error: Exception)

  /** What `"" + s` yields in Java: a null string concatenates as "null". */
  function Show(s: JString): string
  {
    match s
    case Null => "null"
    case NonNull(v) => v
  }
}
