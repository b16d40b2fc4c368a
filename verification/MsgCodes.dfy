/** The error codes of message passing (`lib/api.h`). */
module MsgCodes {
  const MSG_MAX_LEN: nat := 124
  const MSG_ERR_BASE: nat := 0xFFFF_FF00 // where uids end and, as unsigned numbers, the codes begin

  const DENIED := -2
  const PORT_NOT_FOUND := -4
  const CHANNEL_NOT_FOUND := -5
  const SELF := -6
  const LIMIT := -7
  const PORT_FULL := -8
  const NOMEM := -9
  const BUF_TOO_SMALL := -10
  const QUEUE_FULL := -11
  const INVALID_BUF := -12
  const TOO_LONG := -13
  const EMPTY_MSG := -14
  const INVALID_TASK := -15
  const RECEIVE_QUEUE_FULL := -16
  const PEER_DISCONNECTED := -17
  const DISCONNECTED := -18
  const MSG_NOT_FOUND := -19
  const INVALID_MSG := -21
  const TOO_MANY_HANDLES := -22
  const PEER_INVALID_BUF := -23
  const INVALID_HANDLES := -24
  const PEER_INVALID_HANDLES := -25
  const PEER_INVALID_MSG := -26
}
