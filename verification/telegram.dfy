/**
 * The values the messaging platform hands to the wizard: chats, the bot's
 * membership record, incoming messages, and the outcome of a platform call.
 */
module Telegram {
  import opened Wrappers

  /** The outcome of a platform call: the returned value, or an exception. */
  datatype Call<+T> = Returned(value: T) | Raised

  datatype ChatType = Private | Group | Supergroup | Channel

  datatype Chat = Chat(id: int, kind: ChatType, username: Option<string>, title: Option<string>)

  datatype MemberStatus = Creator | Administrator | Member | Restricted | Left | Kicked

  /** The bot's own membership record in a chat. */
  datatype ChatMember = ChatMember(status: MemberStatus, canInviteUsers: bool)

  /** The argument of a chat lookup: an `@username` string or an integer id. */
  datatype ChatQuery = ByHandle(handle: string) | ById(id: int)

  /** An incoming message: the chat it was forwarded from, and its text. */
  datatype Message = Message(forwardFromChat: Option<Chat>, text: Option<string>)

  predicate StartsWith(s: string, c: char) {
    |s| > 0 && s[0] == c
  }

  /** `message.text` is truthy: present and not empty. */
  predicate HasText(msg: Message) {
    msg.text.Some? && msg.text.value != ""
  }

  /** Status in ['administrator', 'creator']. */
  predicate IsAdmin(member: ChatMember) {
    member.status == Administrator || member.status == Creator
  }

  /** Type in ['group', 'supergroup']. */
  predicate IsGroupKind(kind: ChatType) {
    kind == Group || kind == Supergroup
  }
}
