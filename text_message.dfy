/** The decisions `TextMessage.tsx` takes when it shows one message to a
    viewer: whose message it is, which avatar to show, whether a reply
    quote is shown and whether the viewer may reply. */
module TextMessage {
  import opened Messages

  const DEFAULT_AVATAR := "/avatar.svg"

  /** `isMyMessage`: the viewer wrote it. */
  predicate IsMyMessage(username: string, message: Message): (mine: bool)
    ensures mine <==> message.main.username == username
  {
    username == message.main.username
  }

  /** The image source for an author: their avatar when it is present and
      non-empty (an empty string is falsy), the default image otherwise. */
  function AvatarSrc(d: MessageDetail): (src: string)
    ensures src != []
    ensures d.userAvatar.Some? && d.userAvatar.value != [] ==> src == d.userAvatar.value
    ensures d.userAvatar.None? || d.userAvatar.value == [] ==> src == DEFAULT_AVATAR
  {
    match d.userAvatar
    case Some(a) => if a != [] then a else DEFAULT_AVATAR
    case None => DEFAULT_AVATAR
  }

  /** The quote above a message's body: the replied-to author's avatar,
      name and content. */
  datatype Quote = Quote(avatar: string, username: string, content: string)

  /** The quote is shown exactly for messages that carry a reply, and it
      shows that reply's author and content. */
  function ReplyQuote(message: Message): (q: Option<Quote>)
    ensures q.Some? <==> message.reply.Some?
    ensures q.Some? ==> q.value.username == message.reply.value.username
                        && q.value.content == message.reply.value.content
                        && q.value.avatar != []
  {
    match message.reply
    case None => None
    case Some(d) => Some(Quote(AvatarSrc(d), d.username, d.content))
  }

  /** The reply arrow: offered only on other people's messages, and when
      clicked it hands over that message's own detail. So no one is ever
      offered a reply to themselves. */
  function ReplyAction(username: string, message: Message): (target: Option<MessageDetail>)
    ensures target.Some? <==> !IsMyMessage(username, message)
    ensures target.Some? ==> target.value == message.main && target.value.username != username
  {
    if IsMyMessage(username, message) then None else Some(message.main)
  }
}
