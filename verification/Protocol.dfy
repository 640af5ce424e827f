/** The fields of a packet that the programs read: `shared/protocol.h`. */
module Protocol {
  import opened Codec

  const AUTH_LOGIN := 0
  const AUTH_REGISTER := 1
  const AUTH_LOGOUT := 2

  const DM_MESSAGE := 0
  const DM_HISTORY_REQUEST := 1

  const SERVER_JOIN := 0
  const SERVER_LEAVE := 1
  const SERVER_CREATE := 2
  const SERVER_DELETE := 3
  const SERVER_LIST := 4
  const SERVER_LIST_CHANNELS := 5
  const SERVER_LIST_MEMBERS := 6
  const SERVER_LIST_JOINED := 7
  const SERVER_KICK_MEMBER := 8

  const CHANNEL_CREATE := 0
  const CHANNEL_DELETE := 1
  const CHANNEL_MESSAGE := 2
  const CHANNEL_HISTORY_REQUEST := 3

  const SOCIAL_FRIEND_REQUEST := 0
  const SOCIAL_FRIEND_ACCEPT := 1
  const SOCIAL_FRIEND_REJECT := 2
  const SOCIAL_FRIEND_REMOVE := 3
  const SOCIAL_LIST_FRIENDS := 4
  const SOCIAL_LIST_USERS := 5
  const SOCIAL_UPDATE_STATUS := 6

  const STATUS_ONLINE := 0
  const STATUS_OFFLINE := 1

  const RESP_OK := 0
  const RESP_DONE := 1
  const RESP_ERR_INVALID := -1
  const RESP_ERR_UNAUTHORIZED := -2
  const RESP_ERR_NOT_FOUND := -3
  const RESP_ERR_CONFLICT := -4
  const RESP_ERR_DB := -5

  const LIST_FRAME_SINGLE := 0
  const LIST_FRAME_START := 1
  const LIST_FRAME_MIDDLE := 2
  const LIST_FRAME_END := 3

  const NAME_LEN := 31      // MAX_NAME_LEN without the terminator
  const STATUS_LEN := 64    // PROFILE_STATUS_LEN
  const MESSAGE_LEN := 511  // MESSAGE_LEN without the terminator

  datatype Payload =
    | Auth(action: int, status: int, username: string, password: string)
    | Dm(action: int, status: int, recipient: int, messageId: int, text: string)
    | Server(action: int, server: int, target: int, status: int, memberCount: int, name: string)
    | Channel(action: int, server: int, status: int, channel: int, name: string, messageId: int, text: string)
    | Social(presence: int, action: int, status: int, target: int, name: string, profile: string)

  datatype Packet = Packet(sender: int, index: int, total: int, frame: int, payload: Payload)

  /** A packet outside any list, as `create_base_packet` or `memset` starts it. */
  function Plain(payload: Payload): Packet {
    Packet(0, 0, 0, LIST_FRAME_SINGLE, payload)
  }

  function Framed(frame: int, payload: Payload): Packet {
    Packet(0, 0, 0, frame, payload)
  }

  // ------------------------------------------------------------ reading the fields of an image

  function Signed(v: nat, modulus: nat): int {
    if v < modulus / 2 then v else v - modulus
  }

  function Int32At(little: bool, image: seq<byte>, off: nat): int
    requires |image| == PACKET_SIZE && off + 4 <= PACKET_SIZE
  {
    Signed(HostValue(little, image[off..off + 4]), 0x1_0000_0000)
  }

  function Int64At(little: bool, image: seq<byte>, off: nat): int
    requires |image| == PACKET_SIZE && off + 8 <= PACKET_SIZE
  {
    Signed(HostValue(little, image[off..off + 8]), 0x1_0000_0000_0000_0000)
  }

  /** The C string in a character array: its bytes up to the first NUL. */
  function Text(bytes: seq<byte>): string {
    if bytes == [] || bytes[0] == 0 then "" else [bytes[0] as char] + Text(bytes[1..])
  }

  function PayloadOf(little: bool, image: seq<byte>): Payload
    requires |image| == PACKET_SIZE
  {
    var t := HostType(little, image);
    if t == PACKET_AUTH then
      Auth(Int32At(little, image, 32), Int32At(little, image, 36), Text(image[40..72]), Text(image[72..136]))
    else if t == PACKET_DM then
      Dm(Int32At(little, image, 32), Int32At(little, image, 36), Int32At(little, image, 40), Int64At(little, image, 48),
         Text(image[56..568]))
    else if t == PACKET_SERVER then
      Server(Int32At(little, image, 32), Int64At(little, image, 40), Int64At(little, image, 48),
             Int32At(little, image, 56), Int32At(little, image, 60), Text(image[64..96]))
    else if t == PACKET_CHANNEL then
      Channel(Int32At(little, image, 32), Int64At(little, image, 40), Int32At(little, image, 48),
              Int64At(little, image, 56), Text(image[64..96]), Int64At(little, image, 96), Text(image[104..616]))
    else
      Social(Int32At(little, image, 32), Int32At(little, image, 36), Int32At(little, image, 40),
             Int64At(little, image, 48), Text(image[56..88]), Text(image[88..153]))
  }

  /** The packet that a host sees in a received image. */
  function PacketOf(little: bool, image: seq<byte>): Packet
    requires |image| == PACKET_SIZE
  {
    Packet(Int64At(little, image, 8), Int32At(little, image, 20), Int32At(little, image, 24), Int32At(little, image, 28),
           PayloadOf(little, image))
  }
}
