/** The chat message model shared by the three components: a participant,
    the denormalised "who said what" detail, and the message itself. */
module Messages {

  datatype Option<+T> = None | Some(value: T)

  /** A chat participant. `userAvatar` is optional. */
  datatype User = User(id: string, username: string, userAvatar: Option<string>)

  /** The author's fields flattened together with a content string. It is
      used both as the body of a message and as the snapshot a reply
      carries. */
  datatype MessageDetail = MessageDetail(id: string, username: string, userAvatar: Option<string>, content: string)

  datatype MessageType = TEXT | SYSTEM

  /** A chat message. `kind` stands for the source's `type` field, which
      is a reserved word in Dafny. `createdAt` is in epoch milliseconds. */
  datatype Message = Message(id: string, kind: MessageType, main: MessageDetail, reply: Option<MessageDetail>, createdAt: int)

  /** The user a detail was taken from. */
  function AuthorOf(d: MessageDetail): User
  {
    User(d.id, d.username, d.userAvatar)
  }

  /** `{ ...user, content }`: the user's fields spread into a detail with
      the given content. `AuthorOf` undoes it. */
  function DetailOf(user: User, content: string): (d: MessageDetail)
    ensures AuthorOf(d) == user && d.content == content
  {
    MessageDetail(user.id, user.username, user.userAvatar, content)
  }

  /** A detail is fully determined by its author and its content. */
  lemma DetailRoundTrip(d: MessageDetail)
    ensures DetailOf(AuthorOf(d), d.content) == d
  {
  }
}
