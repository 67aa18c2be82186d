/**
  The parts of a Telegram update that the service handlers read: the user
  objects announced in a service message and the message's service fields.
 */
module Telegram {
  import opened Wrappers

  /** A chat participant: its numeric id, whether it is a bot account, and its display name. */
  datatype User = User(id: int, isBot: bool, name: string)

  /**
    A service message. `newMembers` is empty when nobody joined; `migrateTo`
    is `None` when the chat did not migrate; `leftMember` is `None` when
    nobody left.
   */
  datatype Message = Message(
    chatId: int,
    groupChatCreated: bool,
    newMembers: seq<User>,
    migrateTo: Option<int>,
    leftMember: Option<User>)

}
