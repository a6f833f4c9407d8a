/** A received request: the message with its "type" removed, and that type
    split into protocol and message type. */
module Requests {
  import opened Wire

  /** `kind` holds what the source calls `type` (a reserved word here). */
  datatype Request = Request(data: Message, protocol: string, kind: string)
}
