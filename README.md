# Chatroom client core in Dafny

This project models the chat logic of a real-time chatroom client, taken from three React components:

- the message composer (`MessageInput.tsx`): the draft text, the IME composition flag, when Enter submits, how a blank draft is rejected and what a submit sends;
- the chatroom session (`Chatroom.tsx`): the single pending-reply slot, the reply preview and its close button, the SYSTEM notices `"<username> Joined"` and `"<username> Left"`, and the leave call made after the "Left" notice;
- the per-message view decisions (`TextMessage.tsx`): whether a message is the viewer's own, which avatar is shown, whether a reply quote is shown and what it shows, and whether a reply arrow is offered and what it hands over.

Modules:

- `Messages` (`messages.dfy`) holds the data model: `User`, `MessageDetail` (a user's fields spread together with a `content`), `MessageType` and `Message`. The source's field `type` is called `kind`, because `type` is a reserved word in Dafny.
- `JsString` (`js_string.dfy`) models ECMAScript's `String.prototype.trim` over the WhiteSpace and LineTerminator code points. Section 22.1.3.32 of ECMA-262 defines it. The composer uses it only to test for emptiness.
- `Room` (`room.dfy`) models `Chatroom.tsx`. Its pure functions (`SetReply`, `SystemMessage`, `RoomJoined`, `RoomLeft`, …) work on a `RoomState`. The class `Chatroom` holds the `reply` field. Each of its handlers is proved to produce exactly the state the matching function gives.
- `Composer` (`composer.dfy`) models `MessageInput.tsx` in the same way. The pure functions are `ContentChanged`, `CompositionStarted`, `CompositionEnded`, `Submit` and `KeyDown`. The class `MessageInput` holds `messageContent` and `isInputtingMandarin`. It takes its user, its pending reply and its two callbacks from the `Chatroom` it belongs to.
- `TextMessage` (`text_message.dfy`) holds the pure view decisions.
- `Session` (`session.dfy`) joins them into one event-driven session. Its events are typing, composition start and end, key presses, reply clicks, dismissing, mounting and unloading. It proves an invariant over every run.

What the session hands to its collaborators is recorded in one ordered ghost log, `effects`. Each entry is either `Send(message)`, for the message hook's `handleSendMessage`, or `LeaveRoom(user)`, for the room hook's `handleLeaveRoom`. A single log keeps the order between a "Left" notice and the leave call that follows it.

Message ids (`generateId()`) and timestamps (`Date.now()`) are parameters of the handlers that need them (`id`, `createdAt`).

Two behaviours of the code are easy to misread:

- The code sends the raw draft as `main.content`. Trimming is only the emptiness test. It does not produce the content that is sent.
- The code has no guard that makes leaving happen at most once. Every `beforeunload` runs `handleRoomLeft` again. `Room.LeaveIsNotGuarded` shows that two leaves give two notices and two leave calls.

## Model

| member | source | states |
|---|---|---|
| Messages.DetailOf | packages/app/components/MessageInput.tsx:40-43 | `{ ...user, content }` keeps the user's fields and the content: `AuthorOf` gives the user back and `content` is the one supplied |
| Messages.DetailRoundTrip | packages/app/components/Chatroom.tsx:39 | a detail is rebuilt exactly from its author and content, so the spread loses nothing |
| JsString.LeadingWhitespace | packages/app/components/MessageInput.tsx:30 | the part `trim` cuts from the front is all whitespace, and what follows it, if anything, starts with a non-whitespace code point |
| JsString.TrailingWhitespaceStart | packages/app/components/MessageInput.tsx:30 | the part `trim` cuts from the back is all whitespace, and what precedes it, if anything, ends with a non-whitespace code point |
| JsString.Trim | packages/app/components/MessageInput.tsx:30-31 | the trimmed text is the piece of the draft left after cutting all-whitespace runs from both ends; it neither starts nor ends with whitespace, and it is empty exactly when the draft is all whitespace |
| JsString.TrimIdempotent | packages/app/components/MessageInput.tsx:30 | trimming an already trimmed text changes nothing |
| Room.SystemMessage | packages/app/components/Chatroom.tsx:26-32 | a SYSTEM message carries the given detail, id and time and never a reply |
| Room.RoomJoined | packages/app/components/Chatroom.tsx:38-40 | joining keeps the reply slot and appends exactly one SYSTEM notice whose detail is the user's fields with content "<username> Joined" |
| Room.RoomLeft | packages/app/components/Chatroom.tsx:42-45 | leaving keeps the reply slot and appends the SYSTEM notice "<username> Left" and then the leave call for the same user, nothing else |
| Room.ReplyPreview | packages/app/components/Chatroom.tsx:73-75 | the preview is shown exactly when a reply is pending, and it shows that reply's content |
| Room.JoinEmitsOneNotice | packages/app/components/Chatroom.tsx:24-40 | joining appends exactly one message: a SYSTEM notice with no reply, the user's fields, the given id and time, and content "<username> Joined"; the reply slot is untouched |
| Room.LeaveEmitsNoticeThenLeaves | packages/app/components/Chatroom.tsx:42-45 | leaving appends the SYSTEM notice "<username> Left" with no reply and then one leave call for the same user, in that order, and nothing else |
| Room.LeaveIsNotGuarded | packages/app/components/Chatroom.tsx:60-63 | a second unload leaves again: the log gains exactly notice, leave, notice, leave, and the reply slot is untouched, so leaving is not at-most-once |
| Room.SetReplyReplaces | packages/app/components/Chatroom.tsx:47-50 | setting a reply overwrites the slot: after `d1` then `d2` the slot holds exactly `d2`, with no stacking |
| Room.DismissHidesPreview | packages/app/components/Chatroom.tsx:76-78 | the close button clears the pending reply, so the preview disappears |
| Room.Chatroom.constructor | packages/app/components/Chatroom.tsx:20 | a new session has no pending reply and has made no calls |
| Room.Chatroom.HandleSendMessage | packages/app/components/Chatroom.tsx:17 | a call to the message hook appends that message to the effect log and changes nothing else |
| Room.Chatroom.HandleLeaveRoom | packages/app/components/Chatroom.tsx:18 | a call to the room hook appends that leave to the effect log and changes nothing else |
| Room.Chatroom.HandleSetReply | packages/app/components/Chatroom.tsx:47-50 | the reply field becomes exactly the given detail or null; the log is unchanged |
| Room.Chatroom.DismissReply | packages/app/components/Chatroom.tsx:78 | the reply field becomes null; the log is unchanged |
| Room.Chatroom.HandleSendSystemMessage | packages/app/components/Chatroom.tsx:24-36 | appends one SYSTEM message with the given detail, id and time and no reply |
| Room.Chatroom.HandleRoomJoined | packages/app/components/Chatroom.tsx:38-40 | performs exactly `RoomJoined` on the session state |
| Room.Chatroom.HandleRoomLeft | packages/app/components/Chatroom.tsx:42-45 | performs exactly `RoomLeft` on the session state: the notice, then the leave call |
| Composer.SubmitsOn | packages/app/components/MessageInput.tsx:56 | a key-down submits exactly when it is Enter without Shift and no input method is composing |
| Composer.Submit | packages/app/components/MessageInput.tsx:29-51 | a submit always empties the draft, keeps the composition flag and clears the pending reply; it appends one TEXT message built from the user, the raw content and the reply pending before the submit unless the content is all whitespace, in which case the log is unchanged |
| Composer.KeyDown | packages/app/components/MessageInput.tsx:53-60 | a key-down that does not submit changes nothing; one that submits empties the draft and clears the reply; the log gains the draft's TEXT message exactly when the key submits and the draft is not all whitespace |
| Composer.ChangeSetsDraftOnly | packages/app/components/MessageInput.tsx:24-27 | a change sets the draft to exactly the new value and leaves the composition flag alone |
| Composer.CompositionGatesEnter | packages/app/components/MessageInput.tsx:56-68 | after composition starts, a plain Enter does not submit; after it ends, a plain Enter does |
| Composer.KeyDownWithoutSubmitIsInert | packages/app/components/MessageInput.tsx:53-60 | a key that is not Enter, or Enter with Shift or during composition, leaves draft, flag, reply and log unchanged |
| Composer.KeyDownSendsIff | packages/app/components/MessageInput.tsx:29-59 | a key-down sends a message if and only if it is Enter without Shift, outside composition, on a draft that is not all whitespace |
| Composer.BlankSubmitSendsNothing | packages/app/components/MessageInput.tsx:30-35 | an all-whitespace draft sends nothing, empties the draft and drops the pending reply |
| Composer.SubmitSendsOneMessage | packages/app/components/MessageInput.tsx:37-50 | any other draft sends exactly one TEXT message: the user's fields, the raw untrimmed content, the given id and time, and the reply pending at that moment; afterwards the draft is empty and no reply is pending |
| Composer.MessageInput.constructor | packages/app/components/MessageInput.tsx:21-22 | the draft starts empty and the composition flag false |
| Composer.MessageInput.HandleMessageContentChange | packages/app/components/MessageInput.tsx:24-27 | performs exactly `ContentChanged` |
| Composer.MessageInput.HandleCompositionStart | packages/app/components/MessageInput.tsx:67 | sets the composition flag |
| Composer.MessageInput.HandleCompositionEnd | packages/app/components/MessageInput.tsx:68 | clears the composition flag |
| Composer.MessageInput.HandleSendMessage | packages/app/components/MessageInput.tsx:29-51 | changes the draft, the chatroom's reply and the log exactly as `Submit` does |
| Composer.MessageInput.HandleMessageContentKeyDown | packages/app/components/MessageInput.tsx:53-60 | changes the draft, the chatroom's reply and the log exactly as `KeyDown` does |
| TextMessage.IsMyMessage | packages/app/components/TextMessage.tsx:17 | a message is the viewer's own exactly when its `main` username is the viewer's username |
| TextMessage.AvatarSrc | packages/app/components/TextMessage.tsx:26-38 | the image source is never empty: it is the author's avatar when present and non-empty, "/avatar.svg" otherwise |
| TextMessage.ReplyQuote | packages/app/components/TextMessage.tsx:41-69 | the quote is shown exactly when the message carries a reply, and it shows that reply's username, its content and a non-empty avatar |
| TextMessage.ReplyAction | packages/app/components/TextMessage.tsx:84-91 | the reply arrow is offered exactly on messages that are not the viewer's own, and clicking it hands over that message's `main` detail, never one of the viewer's |
| Session.InitialInvariant | packages/app/components/Chatroom.tsx:20 | the freshly mounted session satisfies the session invariant |
| Session.KeyPressPreservesInvariant | packages/app/components/MessageInput.tsx:53-60 | a key press keeps the session invariant; a submitting Enter on a non-blank draft appends exactly the user's TEXT message with that draft and the reply already pending, and any other key press leaves the log as it was |
| Session.JoinPreservesInvariant | packages/app/components/Chatroom.tsx:56-58 | mounting keeps the session invariant: it sends only the user's "Joined" notice |
| Session.LeavePreservesInvariant | packages/app/components/Chatroom.tsx:42-45 | unloading keeps the session invariant: the leave call comes right after the user's "Left" notice |
| Session.StepPreservesInvariant | packages/app/components/MessageInput.tsx:37-50 | every handler keeps the invariant: the pending reply and every reply sent come from another person's message in the feed; every message sent is the user's own; SYSTEM messages are join or leave notices without a reply; every leave call follows this user's "Left" notice |
| Session.RunPreservesInvariant | packages/app/components/TextMessage.tsx:84-87 | any run of events whose clicks stay within the feed keeps that invariant |
| Session.RunIsAppendOnly | packages/app/components/Chatroom.tsx:24-45 | the effect log only grows: earlier calls are never removed or reordered |
| Session.SessionIsWellBehaved | packages/app/components/TextMessage.tsx:87 | from mount on, no SYSTEM message carries a reply, every sent message is the user's own, no TEXT message is blank, every reply sent is the `main` of another person's displayed message, and every leave call follows the user's "Left" notice |
| Session.RepliesWereClickedEarlier | packages/app/components/TextMessage.tsx:84-91 | after any first `n` events of a run, every reply sent so far is the `main` of another person's message whose arrow was clicked among those same `n` events |
| Session.ReplyIsQuoted | packages/app/components/TextMessage.tsx:41-65 | clicking the arrow of another person's message and then pressing Enter sends one message whose quote shows that person's name and content; no reply is pending afterwards |
| Session.EnterWhileComposingKeepsReply | packages/app/components/MessageInput.tsx:56 | Enter during composition changes nothing in the session, so the draft and the pending reply are kept |

## Left out

- Markup, CSS classes, the alignment of own and others' messages, and `scrollIntoView`: these are presentation only.
- The timestamp text `moment(createdAt).format(...)`: it comes from a foreign library and depends on locale and time zone.
- `generateId` and `Date.now`: their code is not part of this model. They are parameters, and the model proves neither that ids are unique nor that timestamps increase.
- The message hook and the room hook (`useMessage`, `useRoom`): their code is not part of this model. Calls into them are recorded in the `effects` log, and the message store they keep is not modelled.
- Registering and removing the `beforeunload` listener, and React's effect scheduling: the model does not capture when React reruns the mount effect. Mounting and unloading are events, and nothing limits how often they happen.
- `MessageList`: it is not part of this model. The model assumes it gives each message's view the chatroom user's `username`. The set of messages a reply can be clicked on is the `feed` parameter of the session lemmas.
- `e.preventDefault()` on a submitting Enter: the model has no textarea text of its own, so a submitting Enter never adds a newline to the draft. The newline of a Shift+Enter, and the text a composing Enter commits, reach the draft only as a separate typing event.
- The textarea's `maxLength={500}`: the browser enforces it, not this code, so no length bound is modelled.
- JavaScript strings are UTF-16 code units, and Dafny strings are Unicode scalar values. Every code point that `trim` removes lies in the Basic Multilingual Plane, so the emptiness test is the same either way.
