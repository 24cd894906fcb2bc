/**
 * The wire protocol of the messenger's WebSocket API: the opcode table, the
 * outbound command envelope and the inbound frame.
 */
module Protocol {
  import opened Wrappers
  import opened PyJson

  const HEARTBEAT := 1
  const HANDSHAKE := 6
  const SEND_VERIFY_CODE := 17
  const CHECK_VERIFY_CODE := 18
  const AUTHENTICATE := 19
  const AUTH_CONFIRM := 20
  const GET_CONTACT_DETAILS := 32
  const FIND_BY_PHONE_NUMBER := 46
  const GET_HISTORY := 49
  const MARK_AS_READ := 50
  const SEND_MESSAGE := 64
  const SUBSCRIBE_TO_CHAT := 75

  /** The client's named opcode table. */
  const OpcodeMap: map<string, int> := map[
    "HEARTBEAT" := HEARTBEAT, "HANDSHAKE" := HANDSHAKE,
    "SEND_VERIFY_CODE" := SEND_VERIFY_CODE, "CHECK_VERIFY_CODE" := CHECK_VERIFY_CODE,
    "AUTHENTICATE" := AUTHENTICATE, "AUTH_CONFIRM" := AUTH_CONFIRM,
    "GET_CONTACT_DETAILS" := GET_CONTACT_DETAILS, "FIND_BY_PHONE_NUMBER" := FIND_BY_PHONE_NUMBER,
    "GET_HISTORY" := GET_HISTORY, "MARK_AS_READ" := MARK_AS_READ,
    "SEND_MESSAGE" := SEND_MESSAGE, "SUBSCRIBE_TO_CHAT" := SUBSCRIBE_TO_CHAT]

  /**
   * Every `OPCODE_MAP[name]` lookup the client performs finds its name, and the
   * four opcodes it sends are pairwise different, so responses and pushes never
   * confuse them.
   */
  lemma NamedOpcodes()
    ensures "HEARTBEAT" in OpcodeMap && OpcodeMap["HEARTBEAT"] == HEARTBEAT
    ensures "HANDSHAKE" in OpcodeMap && OpcodeMap["HANDSHAKE"] == HANDSHAKE
    ensures "AUTHENTICATE" in OpcodeMap && OpcodeMap["AUTHENTICATE"] == AUTHENTICATE
    ensures "SUBSCRIBE_TO_CHAT" in OpcodeMap && OpcodeMap["SUBSCRIBE_TO_CHAT"] == SUBSCRIBE_TO_CHAT
    ensures |{HEARTBEAT, HANDSHAKE, AUTHENTICATE, SUBSCRIBE_TO_CHAT}| == 4
  {
  }

  /** Protocol version every outbound command carries. */
  const PROTOCOL_VERSION := 11
  /** `cmd` of every outbound command. */
  const CMD_REQUEST := 0

  /** An outbound command `{ver, cmd, seq, opcode, payload}`. */
  datatype Envelope = Envelope(ver: int, cmd: int, seqId: nat, opcode: int, payload: Json)

  function Command(seqId: nat, opcode: int, payload: Json): Envelope {
    Envelope(PROTOCOL_VERSION, CMD_REQUEST, seqId, opcode, payload)
  }

  /**
   * A decoded inbound JSON object. A key the object lacks reads as `JNull`, as
   * `dict.get` returns `None` for it; `payload` keeps absence apart from `null`
   * because `.get('payload', {})` does.
   */
  datatype Frame = Frame(cmd: Json, seqId: Json, opcode: Json, payload: Option<Json>)

  /** One inbound text message: not a JSON object at all, or a frame. */
  datatype Inbound = Malformed | Parsed(frame: Frame)

  /** Wire values of an inbound frame's `cmd`. */
  const CMD_PUSH := 0
  const CMD_RESPONSE := 1
  const CMD_ERROR := 3
}
