/**
  NOTIFICATION messages, the code points they use, and the errors that carry them.
  */
module Notifications {
  import opened Bytes

  const NOTIF_CODE_MESSAGE_HEADER_ERR: byte := 1
  const NOTIF_CODE_OPEN_MESSAGE_ERR: byte := 2
  const NOTIF_CODE_UPDATE_MESSAGE_ERR: byte := 3
  const NOTIF_CODE_HOLD_TIMER_EXPIRED: byte := 4
  const NOTIF_CODE_FSM_ERR: byte := 5
  const NOTIF_CODE_CEASE: byte := 6

  const NOTIF_SUBCODE_CONN_NOT_SYNCHRONIZED: byte := 1
  const NOTIF_SUBCODE_BAD_MESSAGE_LEN: byte := 2
  const NOTIF_SUBCODE_BAD_MESSAGE_TYPE: byte := 3

  const NOTIF_SUBCODE_UNSUPPORTED_VERSION_NUM: byte := 1
  const NOTIF_SUBCODE_BAD_PEER_AS: byte := 2
  const NOTIF_SUBCODE_BAD_BGP_ID: byte := 3
  const NOTIF_SUBCODE_UNSUPPORTED_OPTIONAL_PARAM: byte := 4
  const NOTIF_SUBCODE_UNACCEPTABLE_HOLD_TIME: byte := 6
  const NOTIF_SUBCODE_UNSUPPORTED_CAPABILITY: byte := 7

  const NOTIF_SUBCODE_MALFORMED_ATTR_LIST: byte := 1
  const NOTIF_SUBCODE_MISSING_WELL_KNOWN_ATTR: byte := 3
  const NOTIF_SUBCODE_ATTR_FLAGS_ERR: byte := 4
  const NOTIF_SUBCODE_ATTR_LEN_ERR: byte := 5
  const NOTIF_SUBCODE_MALFORMED_AS_PATH: byte := 11

  const NOTIF_SUBCODE_RX_UNEXPECTED_MESSAGE_OPENSENT: byte := 1
  const NOTIF_SUBCODE_RX_UNEXPECTED_MESSAGE_OPENCONFIRM: byte := 2
  const NOTIF_SUBCODE_RX_UNEXPECTED_MESSAGE_ESTABLISHED: byte := 3

  datatype Notification = Notification(code: byte, subcode: byte, data: seq<byte>)

  datatype Option<+T> = None | Some(value: T)

  /**
    What `errors.As(err, &notificationError)` sees in an error: the notification it
    wraps and whether it is to be sent (`out`), or nothing.
    */
  datatype Error = NotificationError(notification: Notification, out: bool) | OtherError {
    /** Go's `dampPeer`, false for an error without a notification. */
    predicate DampsPeer() {
      NotificationError? && notification.code != NOTIF_CODE_CEASE
    }
  }

  /** The result of a Go function that returns a value or an error, or panics. */
  datatype Outcome<+T> = Ok(value: T) | Err(error: Error) | Panic {
    predicate IsFailure() { !Ok? }

    function PropagateFailure<U>(): Outcome<U>
      requires IsFailure()
    {
      if Err? then Err(error) else Panic
    }

    function Extract(): T
      requires Ok?
    {
      value
    }
  }

  function Refuse(code: byte, subcode: byte, data: seq<byte>): Error {
    NotificationError(Notification(code, subcode, data), true)
  }

  function OpenError(subcode: byte): Error {
    Refuse(NOTIF_CODE_OPEN_MESSAGE_ERR, subcode, [])
  }
}
