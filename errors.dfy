/** The exception classes the core raises or lets through, as one error type,
    and the Option and Result wrappers the model uses in place of `None` and `raise`. */
module Errors {

  /** The name of `ErrorDetails.USER_ATTRIBUTE_REQUIRED`; its text is not part of this model. */
  const USER_ATTRIBUTE_REQUIRED: string := "USER_ATTRIBUTE_REQUIRED"

  /** `Error.PASSWORD_ERROR` (src/auth/constants.py:6). */
  const PASSWORD_ERROR: string := "Password must be between 8 and 20 characters"

  datatype Error =
    | MessageBusMessageError         // a queued value that is neither an event nor a command
    | KeyError                       // a failed dictionary lookup
    | TypeError                      // a constructor called with missing or unexpected arguments
    | AttributeError                 // a method or attribute the object does not have
    | ValueError(detail: string)
    | UserAlreadyExistsError
    | UserNotFoundError
    | EmailIsNotVerifiedError
    | InvalidPasswordError
    | GroupAlreadyExistsError
    | GroupNotFoundError
    | GroupOwnerError
    | GroupNameValidationError

  datatype Option<+T> = None | Some(value: T)

  datatype Result<+T> = Ok(value: T) | Err(error: Error)
}
