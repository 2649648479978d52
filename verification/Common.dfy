/** Shared vocabulary: optional values and the error results of the relay packages. */
module Common {

  datatype Option<+T> = None | Some(value: T)

  datatype Error =
    | ErrServerOffline
    | ErrServerBusy
    | ErrNotOwner
    | ErrGuestNotFound
    | ErrShortIDConflict
    | ErrRoomNotFound
    | ErrRoomFull
    | ErrRoomAlreadyExists
    | ErrClientNotAdmitted

  /** The value of time.Time{}. */
  const ZERO_TIME: int := 0
}
