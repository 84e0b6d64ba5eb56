/** The frames of wire protocol v1 and the error codes they carry. */
module Frames {
  import opened Types

  datatype ClientFrame =
    | Subscribe(requestId: nat, channel: Channel, sinceOffset: nat)
    | Unsubscribe(requestId: nat, channel: Channel)
    | Publish(requestId: nat, channel: Channel, data: Bytes)
    | Connect(requestId: nat, token: Bytes)

  datatype ServerFrame =
    | SubscribeOk(requestId: nat, channel: Channel, epoch: nat, offset: nat)
    | UnsubscribeOk(requestId: nat, channel: Channel)
    | Published(publication: Publication)
    | Error(requestId: nat, code: nat, message: Bytes)
    | ConnectOk(requestId: nat, subject: Bytes, expiresAt: nat)

  const INVALID_FRAME: nat := 1
  const INTERNAL: nat := 4
  const VALIDATION_FAILED: nat := 5
  const INVALID_TOKEN: nat := 6
  const ACL_DENIED: nat := 7
  const NOT_CONNECTED: nat := 8
}
