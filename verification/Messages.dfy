/** The messages that carry a new balance proof (encoding/message.go) and the errors of handling them. */
module Messages {
  import opened Primitives
  import opened Merkle

  datatype Body =
    | Direct
    | Mediated(lock: Lock)
    | Unlock(secret: Secret)
    | RemoveExpired(secretHash: SecretHash)
    | DisposeResponse(secretHash: SecretHash)

  /** The sender is the address recovered from the signature. */
  datatype Envelope = Envelope(
    sender: Address, channelId: nat, openBlock: int,
    nonce: Nonce, transferAmount: int, locksRoot: Digest, body: Body)

  datatype Error =
    | AfterClosed | IdentifierMismatch | NotParticipant | InvalidNonce
    | AmountDecrease | AmountMismatch | InsufficientBalance | ExpirationTooLarge
    | AlreadyOnChain | InvalidLocksRoot | SecretHashNotFound | DuplicateLock
    | NoSuchLock | NotExpired | BalanceDecrease | WrongState | BalanceNotMatch
    | HasLocks | InvalidSender | SettleTooEarly | WithdrawTooLarge

  datatype Outcome = Ok | Err(error: Error)
}
