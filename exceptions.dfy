// The Python exceptions that the modelled code can raise, and a Result
// type that carries either a value or the exception raised instead.

module Exceptions {

  /** The exception classes the core raises (by itself or through a library call). */
  datatype Exc =
    | AttributeError      // an attribute that was never assigned, or a misspelt one
    | IndexError          // a list subscript out of range
    | TypeError           // an operation applied to operands of the wrong type
    | ValueError          // e.g. time.sleep of a negative length
    | KeyError            // a dictionary lookup of a missing key
    | ZeroDivisionError   // division by zero
    | NameError           // a local variable that was never bound
    | ResizeError         // cv2.resize or cv2.copyMakeBorder rejecting its input (no image,
                          // a factor or a size that is not positive, a negative border)
    | OverflowError       // a timedelta beyond its range of days
    | RuntimeError(msg: string)
    | SystemError(msg: string)
    | NotImplementedError

  datatype Result<+T> = Ok(value: T) | Err(error: Exc)

  datatype Option<+T> = None | Some(value: T)
}
