/** The error record the machines keep, and the retry guard they share. */
module AuthErrors {
  import opened Options

  datatype AuthErrorCode =
    | NetworkError | ValidationError | InvitationExpired | InvitationInvalid
    | InvitationRevoked | InvitationAlreadyAccepted | Unknown

  /** The fixed texts shown when nothing better is known, one per failing operation. */
  datatype Fallback =
    | SaveFailed | RegenerationStartFailed | RegenerationFailed | LessonRefetchFailed
    | GenerationStartFailed | OutlineGenerationFailed | OutlineFetchFailed
    | ApprovalFailed | RejectionFailed | UpdateFailed
    | LessonStartFailed | LessonGenerationFailed | LessonFetchFailed | PollFailed
    | EmailTaken | EmailCheckFailed | EnterpriseSubmitFailed | RegistrationFailed
    | NotFound | Expired | Revoked | AlreadyUsed | Mismatch | FetchFailed | AcceptFailed

  datatype Message = Given(text: string) | Stock(fallback: Fallback)

  datatype AuthError = AuthError(code: AuthErrorCode, message: Message, retryable: bool)

  /** The machines' usual report: the message of a thrown Error, or the fallback for anything else thrown. */
  function NetworkFailure(thrown: Option<string>, fallback: Fallback): Option<AuthError> {
    Some(AuthError(NetworkError, if thrown.Some? then Given(thrown.value) else Stock(fallback), true))
  }

  /** A failed job's own message, where the empty text is as good as none. */
  function JobFailure(errorMessage: Option<string>, fallback: Fallback): Option<AuthError> {
    NetworkFailure(if errorMessage == Some("") then None else errorMessage, fallback)
  }

  const MAX_RETRY_COUNT := 3

  predicate CanRetry(retryCount: int, error: Option<AuthError>) {
    retryCount < MAX_RETRY_COUNT && (error.None? || error.value.retryable)
  }
}
