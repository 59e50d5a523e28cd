/** The records the chat application passes between its screens and services. */
module Types {

  datatype Option<+T> = None | Some(value: T)

  datatype GameMode = AI | DUO | REMOTE

  datatype AppTheme = BLUE | GREEN | PURPLE | PINK | TEAL | ORANGE | RED | INDIGO | GRAY | BLACK | CUSTOM

  /** A persona: the student's own or the partner's (AI or second student). */
  datatype UserProfile = UserProfile(name: string, role: string, avatarUrl: string)

  /** The scenario chosen on the setup screen, plus the logged-in student's real identity. */
  datatype ChatSettings = ChatSettings(
    realStudentName: string,
    realStudentEmail: string,
    realStudentClass: string,
    topic: string,
    mode: GameMode,
    user: UserProfile,
    partner: UserProfile,
    theme: AppTheme,
    customColor: Option<string>,
    p2pCode: Option<string>)

  datatype AttachmentType = Image | Audio

  /** One transcript entry; `timestamp` is milliseconds since the epoch. */
  datatype Message = Message(
    id: string,
    text: string,
    isUser: bool,
    timestamp: int,
    attachmentUrl: Option<string>,
    attachmentType: Option<AttachmentType>)

  /** A stored conversation; `startTime` and `lastActive` are milliseconds since the epoch. */
  datatype ChatSession = ChatSession(
    id: string,
    studentName: string,
    studentEmail: string,
    studentClass: string,
    topic: string,
    mode: Option<GameMode>,
    roleUser: string,
    rolePartner: string,
    startTime: int,
    lastActive: int,
    messages: seq<Message>)

  /** The body of a CHAT message: a transcript entry without sender flag and time. */
  datatype ChatPayload = ChatPayload(
    id: string,
    text: string,
    attachmentUrl: Option<string>,
    attachmentType: Option<AttachmentType>)

  /** A peer-to-peer message: its tag together with the payload that tag carries.
      `Unrecognised` stands for data whose `type` is none of the three tags. */
  datatype P2PMessage =
    | Chat(chat: ChatPayload)
    | Handshake(userProfile: UserProfile)
    | Typing(isTyping: bool)
    | Unrecognised(tag: string)
  {
    function Tag(): string {
      match this
      case Chat(_) => "CHAT"
      case Handshake(_) => "HANDSHAKE"
      case Typing(_) => "TYPING"
      case Unrecognised(t) => t
    }
  }
}
