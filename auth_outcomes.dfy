/** What the two authentication forms share: the outcome of a Firebase auth call and the message
    both show for an error code they do not recognise. */
module AuthOutcomes {

  /** The auth call resolved, or rejected with an error whose `code` is given. */
  datatype AuthOutcome = Resolved | Rejected(code: string)

  const UnexpectedError := "An unexpected error occurred. Please try again."
  const InvalidEmail := "Invalid email address."
}
