/** The chatroom session (`Chatroom.tsx`): the single pending-reply slot,
    the SYSTEM notices sent on join and leave, and the call that leaves
    the room. What the session hands to its two collaborators, the message
    hook and the room hook, is kept as one ordered log of effects. */
module Room {
  import opened Messages

  /** One call into a collaborator: `handleSendMessage(message)` of the
      message hook, or `handleLeaveRoom(user)` of the room hook. */
  datatype Effect = Send(message: Message) | LeaveRoom(user: User)

  /** The session's state: the pending reply and the calls made so far. */
  datatype RoomState = RoomState(reply: Option<MessageDetail>, effects: seq<Effect>)

  function InitialRoom(): RoomState
  {
    RoomState(None, [])
  }

  /** `setReply(detail)`: the slot is overwritten, never stacked. */
  function SetReply(r: RoomState, detail: Option<MessageDetail>): RoomState
  {
    r.(reply := detail)
  }

  /** A call to the message hook. */
  function SendMessage(r: RoomState, m: Message): RoomState
  {
    r.(effects := r.effects + [Send(m)])
  }

  function JoinedContent(user: User): string
  {
    user.username + " Joined"
  }

  function LeftContent(user: User): string
  {
    user.username + " Left"
  }

  /** The message `handleSendSystemMessage` builds around a detail. */
  function SystemMessage(detail: MessageDetail, id: string, createdAt: int): (m: Message)
    ensures m.kind == SYSTEM && m.reply == None
    ensures m.main == detail && m.id == id && m.createdAt == createdAt
  {
    Message(id, SYSTEM, detail, None, createdAt)
  }

  function SendSystemMessage(r: RoomState, detail: MessageDetail, id: string, createdAt: int): RoomState
  {
    SendMessage(r, SystemMessage(detail, id, createdAt))
  }

  /** Joining sends one SYSTEM notice "<username> Joined" from the user. */
  function RoomJoined(r: RoomState, user: User, id: string, createdAt: int): (r': RoomState)
    ensures r'.reply == r.reply
    ensures |r'.effects| == |r.effects| + 1 && r'.effects[..|r.effects|] == r.effects
    ensures r'.effects[|r.effects|].Send?
    ensures r'.effects[|r.effects|].message == SystemMessage(DetailOf(user, user.username + " Joined"), id, createdAt)
  {
    SendSystemMessage(r, DetailOf(user, JoinedContent(user)), id, createdAt)
  }

  /** Leaving sends one SYSTEM notice "<username> Left" from the user and
      then leaves the room as that user. */
  function RoomLeft(r: RoomState, user: User, id: string, createdAt: int): (r': RoomState)
    ensures r'.reply == r.reply
    ensures r'.effects == r.effects + [Send(SystemMessage(DetailOf(user, user.username + " Left"), id, createdAt)), LeaveRoom(user)]
  {
    var r' := SendSystemMessage(r, DetailOf(user, LeftContent(user)), id, createdAt);
    r'.(effects := r'.effects + [LeaveRoom(user)])
  }

  /** The text of the reply preview above the input, shown only while a
      reply is pending. */
  function ReplyPreview(reply: Option<MessageDetail>): (text: Option<string>)
    ensures text.Some? <==> reply.Some?
    ensures text.Some? ==> text.value == reply.value.content
  {
    match reply
    case None => None
    case Some(d) => Some(d.content)
  }

  /** Join emits exactly one message, a SYSTEM notice with no reply that
      carries the user's fields, the given id and time, and the content
      "<username> Joined"; the reply slot is untouched. */
  lemma JoinEmitsOneNotice(r: RoomState, user: User, id: string, createdAt: int)
    ensures var r' := RoomJoined(r, user, id, createdAt);
      && r'.reply == r.reply
      && |r'.effects| == |r.effects| + 1
      && r'.effects[..|r.effects|] == r.effects
      && var m := r'.effects[|r.effects|];
      && m.Send? && m.message.kind == SYSTEM && m.message.reply == None
      && m.message.id == id && m.message.createdAt == createdAt
      && AuthorOf(m.message.main) == user && m.message.main.content == user.username + " Joined"
  {
  }

  /** Leave emits, in this order, one SYSTEM notice "<username> Left" and
      one call leaving the room as that same user; nothing else changes. */
  lemma LeaveEmitsNoticeThenLeaves(r: RoomState, user: User, id: string, createdAt: int)
    ensures var r' := RoomLeft(r, user, id, createdAt);
      && r'.reply == r.reply
      && r'.effects == r.effects + [Send(SystemMessage(DetailOf(user, LeftContent(user)), id, createdAt)), LeaveRoom(user)]
      && r'.effects[|r.effects|].message.kind == SYSTEM
      && r'.effects[|r.effects|].message.reply == None
      && r'.effects[|r.effects|].message.main.content == user.username + " Left"
  {
  }

  /** Nothing in the session stops a second leave: each one emits its own
      notice and its own leave call, in order, and the reply slot stays. */
  lemma LeaveIsNotGuarded(r: RoomState, user: User, id1: string, at1: int, id2: string, at2: int)
    ensures var r' := RoomLeft(RoomLeft(r, user, id1, at1), user, id2, at2);
      && r'.reply == r.reply
      && r'.effects == r.effects + [Send(SystemMessage(DetailOf(user, LeftContent(user)), id1, at1)), LeaveRoom(user),
                                    Send(SystemMessage(DetailOf(user, LeftContent(user)), id2, at2)), LeaveRoom(user)]
  {
  }

  /** Only the last choice of reply target survives. */
  lemma SetReplyReplaces(r: RoomState, d1: Option<MessageDetail>, d2: Option<MessageDetail>)
    ensures SetReply(SetReply(r, d1), d2) == SetReply(r, d2)
    ensures SetReply(r, d2).reply == d2
  {
  }

  /** Dismissing the preview hides it. */
  lemma DismissHidesPreview(r: RoomState)
    ensures ReplyPreview(SetReply(r, None).reply) == None
  {
  }

  /** A session component: the pending reply it shows and passes down to
      the input, and the calls it has made to its collaborators. */
  class Chatroom {
    const user: User
    var reply: Option<MessageDetail>
    ghost var effects: seq<Effect>

    ghost function State(): RoomState
      reads this
    {
      RoomState(reply, effects)
    }

    /** `useState<MessageDetail | null>(null)`: mounting starts with no
        pending reply and no calls made. */
    constructor (user: User)
      ensures this.user == user && State() == InitialRoom()
    {
      this.user := user;
      reply := None;
      effects := [];
    }

    /** The message hook's `handleSendMessage`, recorded as an effect. */
    method HandleSendMessage(m: Message)
      modifies this`effects
      ensures State() == SendMessage(old(State()), m)
    {
      effects := effects + [Send(m)];
    }

    /** The room hook's `handleLeaveRoom`, recorded as an effect. */
    method HandleLeaveRoom(u: User)
      modifies this`effects
      ensures effects == old(effects) + [LeaveRoom(u)] && reply == old(reply)
    {
      effects := effects + [LeaveRoom(u)];
    }

    method HandleSetReply(detail: Option<MessageDetail>)
      modifies this`reply
      ensures State() == SetReply(old(State()), detail)
    {
      reply := detail;
    }

    /** The close button of the reply preview. */
    method DismissReply()
      modifies this`reply
      ensures State() == SetReply(old(State()), None)
    {
      HandleSetReply(None);
    }

    method HandleSendSystemMessage(detail: MessageDetail, id: string, createdAt: int)
      modifies this`effects
      ensures State() == SendSystemMessage(old(State()), detail, id, createdAt)
    {
      var message := Message(id, SYSTEM, detail, None, createdAt);
      HandleSendMessage(message);
    }

    /** Run by the mount effect. */
    method HandleRoomJoined(id: string, createdAt: int)
      modifies this`effects
      ensures State() == RoomJoined(old(State()), user, id, createdAt)
    {
      HandleSendSystemMessage(DetailOf(user, user.username + " Joined"), id, createdAt);
    }

    /** Run on `beforeunload`. */
    method HandleRoomLeft(id: string, createdAt: int)
      modifies this`effects
      ensures State() == RoomLeft(old(State()), user, id, createdAt)
    {
      HandleSendSystemMessage(DetailOf(user, user.username + " Left"), id, createdAt);
      HandleLeaveRoom(user);
    }
  }
}
