/** The errors a promise in the app can reject with. */
module Errors {

  /** `AppError` is the app's own error class, which carries a message meant
      for the user; every other thrown value (a network failure, a storage
      failure, a programming error) is `Unexpected`. */
  datatype Error =
    | AppError(message: string)
    | Unexpected(description: string)
}
