/**
 * What the device hands to the publish/subscribe transport, observed as one
 * ordered log. The generated transport bindings themselves are not part of
 * this model: an acknowledgment, a published event or an issued command
 * becomes an entry appended to the log.
 */
module Transport {
  import opened Records

  /** The acknowledgment codes the core uses: `SAL__CMD_COMPLETE`, `SAL__CMD_NOPERM`, `SAL__CMD_NOACK`. */
  datatype AckCode = Complete | NoPerm | NoAck

  datatype Output =
    | Ack(cmdId: int, code: AckCode, error: int, msg: string)
    | LogEvent(name: string, data: Record, priority: int)
    | Issue(command: string, payload: Record)

  /** The outbound channel shared by a device's command handlers and its event publisher. */
  class Channel {
    var sent: seq<Output>

    constructor ()
      ensures sent == []
    {
      sent := [];
    }

    method Publish(o: Output)
      modifies this
      ensures sent == old(sent) + [o]
    {
      sent := sent + [o];
    }
  }
}
