/** One chatroom session as a sequence of events: the composer and the
    chatroom together, driven by keystrokes, clicks on the reply arrow or
    the preview's close button, mounting, and page unload. Each event runs
    to completion before the next one. */
module Session {
  import opened Messages
  import opened JsString
  import opened Room
  import opened Composer
  import opened TextMessage

  datatype Event =
    | Typed(value: string)
    | CompositionStart
    | CompositionEnd
    | KeyPressed(key: string, shift: bool, id: string, createdAt: int)
    | ReplyClicked(message: Message)
    | ReplyDismissed
    | Mounted(id: string, createdAt: int)
    | Unloaded(id: string, createdAt: int)

  datatype SessionState = SessionState(composer: ComposerState, room: RoomState)

  function Initial(): SessionState
  {
    SessionState(InitialComposer(), InitialRoom())
  }

  /** The handler each event reaches. A click can only reach the reply
      arrow of a message that shows one, so a click on one's own message
      changes nothing. */
  function Step(user: User, s: SessionState, e: Event): SessionState
  {
    match e
    case Typed(value) => s.(composer := ContentChanged(s.composer, value))
    case CompositionStart => s.(composer := CompositionStarted(s.composer))
    case CompositionEnd => s.(composer := CompositionEnded(s.composer))
    case KeyPressed(key, shift, id, createdAt) =>
      var (c, r) := KeyDown(user, s.composer, s.room, key, shift, id, createdAt);
      SessionState(c, r)
    case ReplyClicked(message) =>
      (match ReplyAction(user.username, message)
       case None => s
       case Some(d) => s.(room := SetReply(s.room, Some(d))))
    case ReplyDismissed => s.(room := SetReply(s.room, None))
    case Mounted(id, createdAt) => s.(room := RoomJoined(s.room, user, id, createdAt))
    case Unloaded(id, createdAt) => s.(room := RoomLeft(s.room, user, id, createdAt))
  }

  function Run(user: User, s: SessionState, events: seq<Event>): SessionState
    decreases |events|
  {
    if events == [] then s else Run(user, Step(user, s, events[0]), events[1..])
  }

  /** `d` is the detail behind a reply arrow of some message in `feed`. */
  ghost predicate Offered(username: string, feed: set<Message>, d: MessageDetail)
  {
    exists m :: m in feed && ReplyAction(username, m) == Some(d)
  }

  /** What this session may hand to the message hook: its own join and
      leave notices, with no reply, and its own non-blank TEXT messages,
      whose reply, if any, was offered by the feed. */
  ghost predicate Emittable(user: User, feed: set<Message>, m: Message)
  {
    match m.kind
    case SYSTEM =>
      && m.reply == None
      && (m.main == DetailOf(user, JoinedContent(user)) || m.main == DetailOf(user, LeftContent(user)))
    case TEXT =>
      && AuthorOf(m.main) == user
      && !AllWhitespace(m.main.content)
      && (m.reply.Some? ==> Offered(user.username, feed, m.reply.value))
  }

  predicate IsLeftNotice(user: User, e: Effect)
  {
    e.Send? && e.message.kind == SYSTEM && e.message.main == DetailOf(user, LeftContent(user))
  }

  /** Every message sent is emittable, and every leave call is this user's
      and comes right after this user's "Left" notice. */
  ghost predicate LogInvariant(user: User, feed: set<Message>, effects: seq<Effect>)
  {
    && (forall i :: 0 <= i < |effects| && effects[i].Send? ==> Emittable(user, feed, effects[i].message))
    && (forall i :: 0 <= i < |effects| && effects[i].LeaveRoom? ==>
          effects[i].user == user && 0 < i && IsLeftNotice(user, effects[i - 1]))
  }

  ghost predicate Invariant(user: User, feed: set<Message>, s: SessionState)
  {
    && (s.room.reply.Some? ==> Offered(user.username, feed, s.room.reply.value))
    && LogInvariant(user, feed, s.room.effects)
  }

  /** Every reply arrow clicked belongs to a message of `feed`. */
  predicate ClicksWithin(feed: set<Message>, events: seq<Event>)
  {
    forall i :: 0 <= i < |events| && events[i].ReplyClicked? ==> events[i].message in feed
  }

  lemma InitialInvariant(user: User, feed: set<Message>)
    ensures Invariant(user, feed, Initial())
  {
  }

  /** Appending to a log that satisfies the invariant. */
  lemma {:induction false} LogAppend(user: User, feed: set<Message>, effects: seq<Effect>, more: seq<Effect>)
    requires LogInvariant(user, feed, effects)
    requires forall j :: 0 <= j < |more| && more[j].Send? ==> Emittable(user, feed, more[j].message)
    requires forall j :: 0 <= j < |more| && more[j].LeaveRoom? ==>
               more[j].user == user && 0 < j && IsLeftNotice(user, more[j - 1])
    ensures LogInvariant(user, feed, effects + more)
  {
    var all := effects + more;
    forall i | 0 <= i < |all| && all[i].LeaveRoom?
      ensures all[i].user == user && 0 < i && IsLeftNotice(user, all[i - 1])
    {
      if i >= |effects| {
        assert all[i] == more[i - |effects|];
        assert all[i - 1] == more[i - |effects| - 1];
      }
    }
    forall i | 0 <= i < |all| && all[i].Send?
      ensures Emittable(user, feed, all[i].message)
    {
      if i >= |effects| {
        assert all[i] == more[i - |effects|];
      }
    }
  }

  /** A key press keeps the invariant. A submitting Enter on a non-blank
      draft appends exactly the user's TEXT message with that draft and the
      reply already pending; any other key press leaves the log alone. */
  lemma {:induction false} KeyPressPreservesInvariant(user: User, feed: set<Message>, s: SessionState, key: string, shift: bool, id: string, createdAt: int)
    requires Invariant(user, feed, s)
    ensures Invariant(user, feed, Step(user, s, KeyPressed(key, shift, id, createdAt)))
    ensures SubmitsOn(s.composer, key, shift) && !IsBlank(s.composer.draft) ==>
              Step(user, s, KeyPressed(key, shift, id, createdAt)).room.effects
                == s.room.effects + [Send(TextMessageOf(user, s.composer.draft, s.room.reply, id, createdAt))]
    ensures !(SubmitsOn(s.composer, key, shift) && !IsBlank(s.composer.draft)) ==>
              Step(user, s, KeyPressed(key, shift, id, createdAt)).room.effects == s.room.effects
  {
    if SubmitsOn(s.composer, key, shift) && !IsBlank(s.composer.draft) {
      var m := TextMessageOf(user, s.composer.draft, s.room.reply, id, createdAt);
      assert Emittable(user, feed, m);
      LogAppend(user, feed, s.room.effects, [Send(m)]);
    }
  }

  /** Mounting keeps the invariant: it sends the user's "Joined" notice. */
  lemma {:induction false} JoinPreservesInvariant(user: User, feed: set<Message>, s: SessionState, id: string, createdAt: int)
    requires Invariant(user, feed, s)
    ensures Invariant(user, feed, Step(user, s, Mounted(id, createdAt)))
  {
    var m := SystemMessage(DetailOf(user, JoinedContent(user)), id, createdAt);
    LogAppend(user, feed, s.room.effects, [Send(m)]);
  }

  /** Unloading keeps the invariant: the leave call comes right after the
      user's "Left" notice. */
  lemma {:induction false} LeavePreservesInvariant(user: User, feed: set<Message>, s: SessionState, id: string, createdAt: int)
    requires Invariant(user, feed, s)
    ensures Invariant(user, feed, Step(user, s, Unloaded(id, createdAt)))
  {
    var m := SystemMessage(DetailOf(user, LeftContent(user)), id, createdAt);
    var more := [Send(m), LeaveRoom(user)];
    assert IsLeftNotice(user, more[0]);
    LogAppend(user, feed, s.room.effects, more);
    assert Step(user, s, Unloaded(id, createdAt)).room.effects == s.room.effects + more;
  }

  /** Each handler keeps the invariant, provided a clicked reply arrow
      belongs to the feed. */
  lemma {:induction false} StepPreservesInvariant(user: User, feed: set<Message>, s: SessionState, e: Event)
    requires Invariant(user, feed, s)
    requires e.ReplyClicked? ==> e.message in feed
    ensures Invariant(user, feed, Step(user, s, e))
  {
    match e
    case KeyPressed(key, shift, id, createdAt) =>
      KeyPressPreservesInvariant(user, feed, s, key, shift, id, createdAt);
    case ReplyClicked(message) =>
      if !IsMyMessage(user.username, message) {
        assert ReplyAction(user.username, message) == Some(message.main);
        assert Offered(user.username, feed, message.main);
      }
    case Mounted(id, createdAt) =>
      JoinPreservesInvariant(user, feed, s, id, createdAt);
    case Unloaded(id, createdAt) =>
      LeavePreservesInvariant(user, feed, s, id, createdAt);
    case _ =>
  }

  /** Any run whose clicks stay within the feed keeps the invariant. */
  lemma {:induction false} RunPreservesInvariant(user: User, feed: set<Message>, s: SessionState, events: seq<Event>)
    requires Invariant(user, feed, s)
    requires ClicksWithin(feed, events)
    ensures Invariant(user, feed, Run(user, s, events))
    decreases |events|
  {
    if events != [] {
      StepPreservesInvariant(user, feed, s, events[0]);
      assert ClicksWithin(feed, events[1..]) by {
        forall i | 0 <= i < |events[1..]| && events[1..][i].ReplyClicked?
          ensures events[1..][i].message in feed
        {
          assert events[1..][i] == events[i + 1];
        }
      }
      RunPreservesInvariant(user, feed, Step(user, s, events[0]), events[1..]);
    }
  }

  /** The effect log only grows: no call is ever taken back or reordered. */
  lemma {:induction false} RunIsAppendOnly(user: User, s: SessionState, events: seq<Event>)
    ensures var fx := Run(user, s, events).room.effects;
      |s.room.effects| <= |fx| && fx[..|s.room.effects|] == s.room.effects
    decreases |events|
  {
    if events != [] {
      var s' := Step(user, s, events[0]);
      assert |s.room.effects| <= |s'.room.effects| && s'.room.effects[..|s.room.effects|] == s.room.effects;
      RunIsAppendOnly(user, s', events[1..]);
    }
  }

  /** From mount on, whatever the user does: every message the session
      sends is its own; SYSTEM messages never carry a reply; a TEXT
      message is never blank; a reply sent is always the detail of some
      other person's message in the feed; and every leave call follows
      this user's "Left" notice. */
  lemma SessionIsWellBehaved(user: User, feed: set<Message>, events: seq<Event>)
    requires ClicksWithin(feed, events)
    ensures var fx := Run(user, Initial(), events).room.effects;
      && (forall i :: 0 <= i < |fx| && fx[i].Send? && fx[i].message.kind == SYSTEM ==> fx[i].message.reply == None)
      && (forall i :: 0 <= i < |fx| && fx[i].Send? ==> AuthorOf(fx[i].message.main) == user)
      && (forall i :: 0 <= i < |fx| && fx[i].Send? && fx[i].message.kind == TEXT ==>
            !AllWhitespace(fx[i].message.main.content))
      && (forall i :: 0 <= i < |fx| && fx[i].Send? && fx[i].message.reply.Some? ==>
            exists m :: m in feed && !IsMyMessage(user.username, m) && m.main == fx[i].message.reply.value)
      && (forall i :: 0 <= i < |fx| && fx[i].LeaveRoom? ==>
            fx[i].user == user && 0 < i && IsLeftNotice(user, fx[i - 1]))
  {
    InitialInvariant(user, feed);
    RunPreservesInvariant(user, feed, Initial(), events);
    var fx := Run(user, Initial(), events).room.effects;
    forall i | 0 <= i < |fx| && fx[i].Send?
      ensures AuthorOf(fx[i].message.main) == user
    {
      assert Emittable(user, feed, fx[i].message);
    }
    forall i | 0 <= i < |fx| && fx[i].Send? && fx[i].message.reply.Some?
      ensures exists m :: m in feed && !IsMyMessage(user.username, m) && m.main == fx[i].message.reply.value
    {
      assert Emittable(user, feed, fx[i].message);
      var m :| m in feed && ReplyAction(user.username, m) == Some(fx[i].message.reply.value);
    }
  }

  /** The messages whose reply arrow was clicked in `events`. */
  function Clicked(events: seq<Event>): set<Message>
  {
    set k | 0 <= k < |events| && events[k].ReplyClicked? :: events[k].message
  }

  /** A reply is only ever sent after it was chosen: whatever has been
      sent once the first `n` events have run carries, as its reply, the
      detail of another person's message whose arrow was clicked among
      those same `n` events. */
  lemma RepliesWereClickedEarlier(user: User, events: seq<Event>, n: nat)
    requires n <= |events|
    ensures var fx := Run(user, Initial(), events[..n]).room.effects;
      forall i :: 0 <= i < |fx| && fx[i].Send? && fx[i].message.reply.Some? ==>
        exists k :: 0 <= k < n && events[k].ReplyClicked?
                    && !IsMyMessage(user.username, events[k].message)
                    && events[k].message.main == fx[i].message.reply.value
  {
    var prefix := events[..n];
    var feed := Clicked(prefix);
    InitialInvariant(user, feed);
    RunPreservesInvariant(user, feed, Initial(), prefix);
    var fx := Run(user, Initial(), prefix).room.effects;
    forall i | 0 <= i < |fx| && fx[i].Send? && fx[i].message.reply.Some?
      ensures exists k :: 0 <= k < n && events[k].ReplyClicked?
                          && !IsMyMessage(user.username, events[k].message)
                          && events[k].message.main == fx[i].message.reply.value
    {
      assert Emittable(user, feed, fx[i].message);
      var m :| m in feed && ReplyAction(user.username, m) == Some(fx[i].message.reply.value);
      var k :| 0 <= k < |prefix| && prefix[k].ReplyClicked? && prefix[k].message == m;
      assert events[k] == prefix[k];
    }
  }

  /** Replying end to end: after clicking the arrow of another person's
      message and pressing Enter on a non-blank draft outside composition,
      the message sent quotes that person's name and content, and no reply
      is pending any more. */
  lemma ReplyIsQuoted(user: User, s: SessionState, other: Message, id: string, createdAt: int)
    requires !IsMyMessage(user.username, other)
    requires !s.composer.composing && !AllWhitespace(s.composer.draft)
    ensures var s' := Run(user, s, [ReplyClicked(other), KeyPressed("Enter", false, id, createdAt)]);
      && |s'.room.effects| == |s.room.effects| + 1
      && s'.room.reply == None
      && var sent := s'.room.effects[|s.room.effects|];
      && sent.Send?
      && ReplyQuote(sent.message) == Some(Quote(AvatarSrc(other.main), other.main.username, other.main.content))
  {
    var s1 := Step(user, s, ReplyClicked(other));
    assert s1.room.reply == Some(other.main);
    var s2 := Step(user, s1, KeyPressed("Enter", false, id, createdAt));
    assert Run(user, s1, [KeyPressed("Enter", false, id, createdAt)]) == s2;
    assert [ReplyClicked(other), KeyPressed("Enter", false, id, createdAt)][1..] == [KeyPressed("Enter", false, id, createdAt)];
  }

  /** A reply pending while composing is kept: Enter during composition
      neither sends nor drops it. */
  lemma EnterWhileComposingKeepsReply(user: User, s: SessionState, id: string, createdAt: int)
    requires s.composer.composing
    ensures Step(user, s, KeyPressed("Enter", false, id, createdAt)) == s
  {
  }
}
