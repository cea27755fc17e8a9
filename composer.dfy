/** The message composer (`MessageInput.tsx`): the draft text, the IME
    composition flag, when Enter submits, and what a submit sends. The
    user, the pending reply and the two callbacks are the chatroom's. */
module Composer {
  import opened Messages
  import opened JsString
  import opened Room

  /** The draft (`messageContent`) and whether an input method is composing
      (`isInputtingMandarin`). */
  datatype ComposerState = ComposerState(draft: string, composing: bool)

  function InitialComposer(): ComposerState
  {
    ComposerState("", false)
  }

  function ContentChanged(c: ComposerState, value: string): ComposerState
  {
    c.(draft := value)
  }

  function CompositionStarted(c: ComposerState): ComposerState
  {
    c.(composing := true)
  }

  function CompositionEnded(c: ComposerState): ComposerState
  {
    c.(composing := false)
  }

  /** Whether a key-down asks for a submit rather than ordinary input. */
  predicate SubmitsOn(c: ComposerState, key: string, shift: bool): (submits: bool)
    ensures submits <==> key == "Enter" && !shift && !c.composing
  {
    key == "Enter" && !shift && !c.composing
  }

  /** The TEXT message a submit builds: the raw content, not its trimmed
      form, under the user's fields, with the pending reply attached. */
  function TextMessageOf(user: User, content: string, reply: Option<MessageDetail>, id: string, createdAt: int): Message
  {
    Message(id, TEXT, DetailOf(user, content), reply, createdAt)
  }

  /** `handleSendMessage(content)`: a content that trims to nothing sends
      nothing; any other is sent as a TEXT message. Either way the draft
      is emptied and the pending reply dropped. */
  function Submit(user: User, c: ComposerState, r: RoomState, content: string, id: string, createdAt: int): (after: (ComposerState, RoomState))
    ensures after.0 == ComposerState("", c.composing)
    ensures after.1.reply == None
    ensures after.1.effects == if AllWhitespace(content) then r.effects
                               else r.effects + [Send(TextMessageOf(user, content, r.reply, id, createdAt))]
  {
    var r' := if IsBlank(content) then r else SendMessage(r, TextMessageOf(user, content, r.reply, id, createdAt));
    (c.(draft := ""), SetReply(r', None))
  }

  /** `handleMessageContentKeyDown`: submits the current draft on a plain
      Enter outside composition; any other key changes nothing here. */
  function KeyDown(user: User, c: ComposerState, r: RoomState, key: string, shift: bool, id: string, createdAt: int): (after: (ComposerState, RoomState))
    ensures !SubmitsOn(c, key, shift) ==> after == (c, r)
    ensures SubmitsOn(c, key, shift) ==> after.0.draft == "" && after.1.reply == None
    ensures after.1.effects == if SubmitsOn(c, key, shift) && !AllWhitespace(c.draft)
                               then r.effects + [Send(TextMessageOf(user, c.draft, r.reply, id, createdAt))]
                               else r.effects
  {
    if SubmitsOn(c, key, shift) then Submit(user, c, r, c.draft, id, createdAt) else (c, r)
  }

  /** The draft becomes exactly the new value; nothing else moves. */
  lemma ChangeSetsDraftOnly(c: ComposerState, value: string)
    ensures ContentChanged(c, value).draft == value
    ensures ContentChanged(c, value).composing == c.composing
  {
  }

  /** While composing, Enter never submits; once composition ends, a plain
      Enter does. */
  lemma CompositionGatesEnter(c: ComposerState)
    ensures !SubmitsOn(CompositionStarted(c), "Enter", false)
    ensures SubmitsOn(CompositionEnded(c), "Enter", false)
  {
  }

  /** A key-down that does not submit leaves draft, flag, reply and the
      effect log as they were. */
  lemma KeyDownWithoutSubmitIsInert(user: User, c: ComposerState, r: RoomState, key: string, shift: bool, id: string, createdAt: int)
    requires key != "Enter" || shift || c.composing
    ensures KeyDown(user, c, r, key, shift, id, createdAt) == (c, r)
  {
  }

  /** A key-down sends a message exactly when it is a plain Enter outside
      composition and the draft is not blank. */
  lemma KeyDownSendsIff(user: User, c: ComposerState, r: RoomState, key: string, shift: bool, id: string, createdAt: int)
    ensures var (_, r') := KeyDown(user, c, r, key, shift, id, createdAt);
      r'.effects != r.effects <==> key == "Enter" && !shift && !c.composing && !AllWhitespace(c.draft)
  {
  }

  /** A blank draft sends nothing, yet still clears the draft and the
      pending reply. */
  lemma BlankSubmitSendsNothing(user: User, c: ComposerState, r: RoomState, content: string, id: string, createdAt: int)
    requires AllWhitespace(content)
    ensures Submit(user, c, r, content, id, createdAt) == (c.(draft := ""), RoomState(None, r.effects))
  {
  }

  /** A non-blank draft sends exactly one TEXT message that carries the
      untrimmed content, the user's fields, the given id and time, and the
      reply pending at that moment; afterwards the draft is empty and no
      reply is pending. */
  lemma SubmitSendsOneMessage(user: User, c: ComposerState, r: RoomState, content: string, id: string, createdAt: int)
    requires !AllWhitespace(content)
    ensures var (c', r') := Submit(user, c, r, content, id, createdAt);
      && c'.draft == "" && c'.composing == c.composing && r'.reply == None
      && |r'.effects| == |r.effects| + 1 && r'.effects[..|r.effects|] == r.effects
      && var e := r'.effects[|r.effects|];
      && e.Send? && e.message.kind == TEXT
      && AuthorOf(e.message.main) == user && e.message.main.content == content
      && e.message.reply == r.reply
      && e.message.id == id && e.message.createdAt == createdAt
  {
  }

  /** The text input of the chatroom. `room` supplies the user, the pending
      reply and the two callbacks the source receives as props. */
  class MessageInput {
    const room: Chatroom
    var messageContent: string
    var isInputtingMandarin: bool

    ghost function State(): ComposerState
      reads this
    {
      ComposerState(messageContent, isInputtingMandarin)
    }

    constructor (room: Chatroom)
      ensures this.room == room && State() == InitialComposer()
    {
      this.room := room;
      messageContent := "";
      isInputtingMandarin := false;
    }

    method HandleMessageContentChange(value: string)
      modifies this`messageContent
      ensures State() == ContentChanged(old(State()), value)
    {
      messageContent := value;
    }

    method HandleCompositionStart()
      modifies this`isInputtingMandarin
      ensures State() == CompositionStarted(old(State()))
    {
      isInputtingMandarin := true;
    }

    method HandleCompositionEnd()
      modifies this`isInputtingMandarin
      ensures State() == CompositionEnded(old(State()))
    {
      isInputtingMandarin := false;
    }

    method HandleSendMessage(content: string, id: string, createdAt: int)
      modifies this`messageContent, room`reply, room`effects
      ensures (State(), room.State()) == Submit(room.user, old(State()), old(room.State()), content, id, createdAt)
    {
      ghost var r0 := room.State();
      var messageText := Trim(content);
      if |messageText| == 0 {
        messageContent := "";
        room.HandleSetReply(None);
        return;
      }
      var message := Message(id, TEXT, DetailOf(room.user, content), room.reply, createdAt);
      assert message == TextMessageOf(room.user, content, r0.reply, id, createdAt);
      room.HandleSendMessage(message);
      messageContent := "";
      room.HandleSetReply(None);
    }

    method HandleMessageContentKeyDown(key: string, shift: bool, id: string, createdAt: int)
      modifies this`messageContent, room`reply, room`effects
      ensures (State(), room.State()) == KeyDown(room.user, old(State()), old(room.State()), key, shift, id, createdAt)
    {
      if key == "Enter" && !shift && !isInputtingMandarin {
        HandleSendMessage(messageContent, id, createdAt);
      }
    }
  }
}
