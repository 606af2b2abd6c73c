/** What the handlers hand to `req.services.publish`: an event name, a
    timestamp, the raw (internal, full-row) view and the clean (whitelisted,
    uuid-keyed) view of the change. */
module Events {
  import opened Common
  import opened ParticipantModel
  import opened ChatModel
  import opened MessageModel

  /** The event names the core publishes, and CLIENT_UPDATED, the
      identity broadcast it consumes. */
  datatype EventName =
    | ChatCreated | ChatUpdated | MessageCreated | MessageComposed
    | ParticipantJoined | ParticipantUpdated | ClientUpdated

  datatype Raw =
    /** A chat row with the rows of its participants. */
    | RawChat(chat: Chat, participants: seq<Participant>)
    /** A chat row alone. */
    | RawChatRow(chat: Chat)
    /** A chat row with `Chat: { uuid, Participants }` attached. */
    | RawChatEcho(chat: Chat, chatUuid: Uuid, participants: seq<Participant>)
    /** A message row with its chat row and the chat's participant rows. */
    | RawMessage(message: Message, chat: Chat, participants: seq<Participant>)
    /** A participant row with its chat row and the chat's participant rows. */
    | RawJoined(participant: Participant, chat: Chat, participants: seq<Participant>)
    /** A participant row alone. */
    | RawParticipant(participant: Participant)
    /** `{ userId, accountId }` of whoever is composing. */
    | RawComposer(userId: Option<ExternalId>, accountId: Option<AccountId>)

  datatype Clean =
    | RoomPayload(room: ChatRoom)
    | ChatPayload(chat: ChatView)
    | MessagePayload(message: MessageCreatedView)
    | JoinedPayload(participant: ParticipantView, chatId: Uuid)
    | ParticipantPayload(participant: ParticipantView)
    | ComposedPayload(chatUuid: Uuid, text: string)

  datatype Event = Event(name: EventName, ts: Time, raw: Raw, clean: Clean)
}
