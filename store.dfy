/** The state-changing handlers of the chat service (src/v1_0/controllers/):
    `createChat`, `updateChat`, `join`, `createMessage`, `composeMessage`
    and the `CLIENT_UPDATED` subscriber `updateParticipantPromise`, as
    methods of one store that owns the four tables and the log of
    published events. */
module ChatService {
  import opened Common
  import opened ParticipantModel
  import opened ChatModel
  import opened MessageModel
  import opened Database
  import opened Events
  import opened MessageQueries

  /** The `join` body: the chat's uuid and the new participant's clean view. */
  datatype Joined = Joined(chatUuid: Uuid, participant: ParticipantView)

  /** An identity broadcast as `updateParticipantPromise` reads it: the
      event name and `meta.raw`'s name, email and clientId. */
  datatype IdentityBroadcast = IdentityBroadcast(
    event: EventName,
    name: Option<string>,
    email: Option<string>,
    clientId: Option<ExternalId>)

  /** CLIENT_UPDATED rewrites client participants, any other event user
      participants. */
  function BroadcastType(event: EventName): RealType {
    if event == ClientUpdated then ClientType else UserType
  }

  /** The participant row stands for the caller: a user by userId and role
      'user', a client by clientId and role 'client'. */
  predicate IsCaller(p: Participant, caller: Caller) {
    match caller
    case User(userId, _, _, _, _) => p.realId == userId && p.realType == UserType
    case Client(clientId, _, _) => p.realId == clientId && p.realType == ClientType
    case NoIdentity => false
  }

  /** The member `createMessage` posts as: the first member of the chat
      that stands for the caller. */
  function Poster(members: seq<Participant>, caller: Caller): (r: Option<Participant>)
    ensures r.Some? ==> r.value in members && IsCaller(r.value, caller)
    ensures r.Some? ==> exists i :: 0 <= i < |members| && members[i] == r.value &&
                          forall j :: 0 <= j < i ==> !IsCaller(members[j], caller)
    ensures r.None? <==> forall p :: p in members ==> !IsCaller(p, caller)
  {
    match FirstIndex(members, (p: Participant) => IsCaller(p, caller))
    case None => None
    case Some(i) => Some(members[i])
  }

  /** `{ userId, accountId }` of the token, as MESSAGE_COMPOSED carries it. */
  function ComposerId(caller: Caller): Option<ExternalId> {
    match caller
    case User(userId, _, _, _, _) => Some(userId)
    case _ => None
  }

  /** The first row an identity broadcast rewrites (`results[0]`). */
  function FirstTarget(ps: seq<Participant>, realType: RealType, realId: Option<ExternalId>, now: Time): (r: Option<nat>)
    ensures r.Some? ==> r.value < |ps| && UpdateTarget(ps[r.value], realType, realId, now)
    ensures r.Some? ==> forall j :: 0 <= j < r.value ==> !UpdateTarget(ps[j], realType, realId, now)
    ensures r.None? <==> forall j :: 0 <= j < |ps| ==> !UpdateTarget(ps[j], realType, realId, now)
  {
    FirstIndex(ps, (p: Participant) => UpdateTarget(p, realType, realId, now))
  }

  class Store {
    var chats: seq<Chat>
    var participants: seq<Participant>
    var memberships: seq<Membership>
    var messages: seq<Message>
    /** Everything handed to `req.services.publish`, oldest first. */
    var events: seq<Event>

    function Snapshot(): Db
      reads this
    {
      Db(chats, participants, memberships, messages)
    }

    ghost predicate Valid()
      reads this
    {
      WellFormed(Snapshot())
    }

    constructor ()
      ensures Valid() && Snapshot() == Db([], [], [], []) && events == []
    {
      chats, participants, memberships, messages, events := [], [], [], [], [];
    }

    method Publish(e: Event)
      modifies this
      ensures Snapshot() == old(Snapshot())
      ensures events == old(events) + [e]
    {
      events := events + [e];
    }

    /** Inserting a row into one table (`Model.create`), keeping the store
        well formed. */
    method InsertChatRow(c: Chat)
      requires Valid() && c.id == |chats| + 1
      modifies this
      ensures Valid() && chats == old(chats) + [c] && events == old(events)
      ensures participants == old(participants) && memberships == old(memberships) && messages == old(messages)
    {
      InsertChat(Snapshot(), c);
      chats := chats + [c];
    }

    method InsertParticipantRow(p: Participant)
      requires Valid() && p.id == |participants| + 1
      modifies this
      ensures Valid() && participants == old(participants) + [p] && events == old(events)
      ensures chats == old(chats) && memberships == old(memberships) && messages == old(messages)
    {
      InsertParticipant(Snapshot(), p);
      participants := participants + [p];
    }

    method InsertMembershipRow(m: Membership)
      requires Valid() && m.id == |memberships| + 1
      requires 1 <= m.chatId <= |chats| && 1 <= m.participantId <= |participants|
      modifies this
      ensures Valid() && memberships == old(memberships) + [m] && events == old(events)
      ensures chats == old(chats) && participants == old(participants) && messages == old(messages)
    {
      InsertMembership(Snapshot(), m);
      memberships := memberships + [m];
    }

    method InsertMessageRow(m: Message)
      requires Valid() && m.id == |messages| + 1
      requires 1 <= m.chatId <= |chats| && AuthorIsMember(memberships, m)
      modifies this
      ensures Valid() && messages == old(messages) + [m] && events == old(events)
      ensures chats == old(chats) && participants == old(participants) && memberships == old(memberships)
    {
      InsertMessage(Snapshot(), m);
      messages := messages + [m];
    }

    /** Rewriting chat rows in place (`update`), ids kept. */
    method RewriteChatRows(cs: seq<Chat>)
      requires Valid() && |cs| == |chats| && forall i :: 0 <= i < |cs| ==> cs[i].id == chats[i].id
      modifies this
      ensures Valid() && chats == cs && events == old(events)
      ensures participants == old(participants) && memberships == old(memberships) && messages == old(messages)
    {
      RewriteChats(Snapshot(), cs);
      chats := cs;
    }

    /** `chat.addParticipant(p)`: a link row from the chat to a stored live
        participant, who becomes the chat's last member. */
    method AddParticipant(c: Chat, p: Participant, now: Time)
      requires Valid() && c in chats && p in participants && Live(p.deletedAt, now)
      modifies this
      ensures Valid()
      ensures memberships == old(memberships) + [NewMembership(|old(memberships)| + 1, c.id, p.id, now)]
      ensures chats == old(chats) && participants == old(participants) && messages == old(messages)
      ensures events == old(events)
      ensures ChatMembers(Snapshot(), c.id, now) == ChatMembers(old(Snapshot()), c.id, now) + [p]
    {
      StoredChat(Snapshot(), c, now);
      StoredParticipant(Snapshot(), p);
      var link := NewMembership(|memberships| + 1, c.id, p.id, now);
      MembersAppend(participants, memberships, link, c.id, now);
      assert [link][1..] == [];
      assert Members(participants, [link], c.id, now) == [p];
      InsertMembershipRow(link);
    }

    /** `chat.createParticipant(p)`: a new participant row, linked to the
        chat as its last member. */
    method CreateParticipant(c: Chat, p: Participant, now: Time)
      requires Valid() && c in chats && p.id == |participants| + 1 && Live(p.deletedAt, now)
      modifies this
      ensures Valid()
      ensures participants == old(participants) + [p]
      ensures memberships == old(memberships) + [NewMembership(|old(memberships)| + 1, c.id, p.id, now)]
      ensures chats == old(chats) && messages == old(messages) && events == old(events)
      ensures ChatMembers(Snapshot(), c.id, now) == ChatMembers(old(Snapshot()), c.id, now) + [p]
    {
      ghost var db0 := Snapshot();
      forall k | 0 <= k < |memberships|
        ensures ParticipantById(participants, memberships[k].participantId).Some?
      {
        ByIdInWellFormed(db0, memberships[k].participantId);
      }
      MembersAfterNewParticipant(participants, memberships, p, c.id, now);
      InsertParticipantRow(p);
      AddParticipant(c, p, now);
    }

    /** `Message.create` of a system message in a stored chat, followed by
        its MESSAGE_CREATED with the given raw view. */
    method PostSystemMessage(c: Chat, accountId: AccountId, text: string, raw: Raw, now: Time, messageUuid: Uuid)
      returns (m: Message)
      requires Valid() && c in chats
      modifies this
      ensures Valid()
      ensures m == NewMessage(|old(messages)| + 1, messageUuid, c.id, accountId, SystemAuthor, text, now)
      ensures messages == old(messages) + [m]
      ensures chats == old(chats) && participants == old(participants) && memberships == old(memberships)
      ensures events == old(events) + [Event(MessageCreated, now, raw, MessagePayload(SystemMessageCreated(m, c.uuid)))]
    {
      m := NewMessage(|messages| + 1, messageUuid, c.id, accountId, SystemAuthor, text, now);
      StoredChat(Snapshot(), c, now);
      InsertMessageRow(m);
      Publish(Event(MessageCreated, now, raw, MessagePayload(SystemMessageCreated(m, c.uuid))));
    }

    /** `chat.update({ status: ACTIVE })` on one chat row, with its
        CHAT_UPDATED carrying the row alone. */
    method Activate(i: nat, now: Time)
      requires Valid() && i < |chats|
      modifies this
      ensures Valid()
      ensures chats == old(chats)[i := old(chats)[i].(status := Active, updatedAt := now)]
      ensures participants == old(participants) && memberships == old(memberships) && messages == old(messages)
      ensures events == old(events) + [Event(ChatUpdated, now, RawChatRow(chats[i]), ChatPayload(CleanChat(chats[i])))]
    {
      var chat := chats[i].(status := Active, updatedAt := now);
      RewriteChatRows(chats[i := chat]);
      Publish(Event(ChatUpdated, now, RawChatRow(chat), ChatPayload(CleanChat(chat))));
    }

    /** `createChat`: a client opens a chat. Its participant row is found
        or created, the chat is inserted with the default status and the
        creator as its only member, and CHAT_CREATED carries the room that
        is also the answer. A caller without a client id is answered with an
        error and nothing changes. */
    method CreateChat(caller: Caller, now: Time, chatUuid: Uuid, participantUuid: Uuid) returns (r: Response<ChatRoom>)
      requires Valid()
      modifies this
      ensures Valid()
      ensures !caller.Client? ==> r == Error && Snapshot() == old(Snapshot()) && events == old(events)
      ensures caller.Client? ==>
                var f := FindOrCreateClient(old(participants), caller.clientId, caller.accountId, caller.uuid,
                                            participantUuid, now);
                var c := NewChat(|old(chats)| + 1, chatUuid, caller.accountId, f.participant.uuid, now);
                && participants == f.rows
                && chats == old(chats) + [c]
                && memberships == old(memberships) + [NewMembership(|old(memberships)| + 1, c.id, f.participant.id, now)]
                && messages == old(messages)
                && ChatMembers(Snapshot(), c.id, now) == [f.participant]
                && r == Ok(Room(Snapshot(), c, now))
                && r.body.chat.status == DEFAULT_STATUS
                && events == old(events) + [Event(ChatCreated, now, RawChat(c, [f.participant]), RoomPayload(r.body))]
    {
      if !caller.Client? {
        return Error;
      }
      var f := FindOrCreateClient(participants, caller.clientId, caller.accountId, caller.uuid, participantUuid, now);
      if f.created {
        InsertParticipantRow(f.participant);
      }
      r := OpenChat(chatUuid, caller.accountId, f.participant, now);
    }

    /** `Chat.create` with the default status followed by
        `chat.addParticipant` of the creator and CHAT_CREATED. */
    method OpenChat(chatUuid: Uuid, accountId: AccountId, p: Participant, now: Time) returns (r: Response<ChatRoom>)
      requires Valid() && p in participants && Live(p.deletedAt, now)
      modifies this
      ensures Valid()
      ensures var c := NewChat(|old(chats)| + 1, chatUuid, accountId, p.uuid, now);
              && chats == old(chats) + [c]
              && memberships == old(memberships) + [NewMembership(|old(memberships)| + 1, c.id, p.id, now)]
              && participants == old(participants) && messages == old(messages)
              && ChatMembers(Snapshot(), c.id, now) == [p]
              && r == Ok(Room(Snapshot(), c, now))
              && events == old(events) + [Event(ChatCreated, now, RawChat(c, [p]), RoomPayload(r.body))]
    {
      var c := NewChat(|chats| + 1, chatUuid, accountId, p.uuid, now);
      assert forall k :: 0 <= k < |memberships| ==> memberships[k].chatId != c.id;
      MembersOfUnlinkedChat(participants, memberships, c.id, now);
      InsertChatRow(c);
      AddParticipant(c, p, now);
      var room := ChatRoom(CleanChat(c), [CleanParticipant(p)]);
      assert CleanParticipants([p]) == [CleanParticipant(p)];
      assert room == Room(Snapshot(), c, now);
      Publish(Event(ChatCreated, now, RawChat(c, [p]), RoomPayload(room)));
      r := Ok(room);
    }

    /** `updateChat`: a user sets the status of every live chat of the
        tenant with the uuid, whatever the old status; the first such row is
        answered, and CHAT_UPDATED and the system message "<name> ended the
        chat" (with its MESSAGE_CREATED) follow. Clients, callers without an
        identity and unknown chats get NotFound and change nothing. */
    method UpdateChat(caller: Caller, uuid: Uuid, status: Status, now: Time, messageUuid: Uuid)
      returns (r: Response<ChatView>)
      requires Valid()
      modifies this
      ensures Valid()
      ensures !caller.User? || FirstLiveChat(old(chats), uuid, caller.accountId, now).None? ==>
                r == NotFound && Snapshot() == old(Snapshot()) && events == old(events)
      ensures caller.User? && FirstLiveChat(old(chats), uuid, caller.accountId, now).Some? ==>
                var i := FirstLiveChat(old(chats), uuid, caller.accountId, now).value;
                var c := WithStatus(old(chats), uuid, caller.accountId, status, now)[i];
                var members := ChatMembers(Snapshot(), c.id, now);
                var m := NewMessage(|old(messages)| + 1, messageUuid, c.id, caller.accountId, SystemAuthor,
                                    EndedText(caller.name), now);
                && chats == WithStatus(old(chats), uuid, caller.accountId, status, now)
                && participants == old(participants) && memberships == old(memberships)
                && messages == old(messages) + [m]
                && FirstLiveChat(chats, uuid, caller.accountId, now) == Some(i)
                && SameChatIdentity(c, old(chats)[i]) && c.status == status
                && r == Ok(CleanChat(c))
                && events == old(events) + [
                     Event(ChatUpdated, now, RawChat(c, members), ChatPayload(CleanChat(c))),
                     Event(MessageCreated, now, RawChatEcho(c, c.uuid, members),
                           MessagePayload(SystemMessageCreated(m, c.uuid)))]
    {
      if !caller.User? {
        return NotFound;
      }
      var found := FirstLiveChat(chats, uuid, caller.accountId, now);
      if found.None? {
        return NotFound;
      }
      var i := found.value;
      WithStatusKeepsFirst(chats, uuid, caller.accountId, status, now, i);
      RewriteChatRows(WithStatus(chats, uuid, caller.accountId, status, now));
      var c := chats[i];
      AnnounceEnded(c, caller.accountId, caller.name, now, messageUuid);
      r := Ok(CleanChat(c));
    }

    /** The announcements of `updateChat`: CHAT_UPDATED with the chat and
        its members, then the system message "… ended the chat" with its
        MESSAGE_CREATED, whose raw view echoes the chat uuid. */
    method AnnounceEnded(c: Chat, accountId: AccountId, name: Option<string>, now: Time, messageUuid: Uuid)
      requires Valid() && c in chats
      modifies this
      ensures Valid()
      ensures chats == old(chats) && participants == old(participants) && memberships == old(memberships)
      ensures messages == old(messages) + [NewMessage(|old(messages)| + 1, messageUuid, c.id, accountId,
                                                      SystemAuthor, EndedText(name), now)]
      ensures var members := ChatMembers(Snapshot(), c.id, now);
              var m := messages[|old(messages)|];
              events == old(events) + [
                Event(ChatUpdated, now, RawChat(c, members), ChatPayload(CleanChat(c))),
                Event(MessageCreated, now, RawChatEcho(c, c.uuid, members), MessagePayload(SystemMessageCreated(m, c.uuid)))]
    {
      var members := ChatMembers(Snapshot(), c.id, now);
      Publish(Event(ChatUpdated, now, RawChat(c, members), ChatPayload(CleanChat(c))));
      var m := PostSystemMessage(c, accountId, EndedText(name), RawChatEcho(c, c.uuid, members), now, messageUuid);
    }

    /** `join`: a user joins a chat of the tenant. A new participant row is
        always inserted and linked, even for a user who is already a member;
        an open chat becomes active (with CHAT_UPDATED); PARTICIPANT_JOINED
        and the system message "<name> has joined the room" follow. Clients,
        callers without an identity and unknown chats get NotFound and
        change nothing. */
    method Join(caller: Caller, uuid: Uuid, now: Time, participantUuid: Uuid, messageUuid: Uuid)
      returns (r: Response<Joined>)
      requires Valid()
      modifies this
      ensures Valid()
      ensures !caller.User? || FirstLiveChat(old(chats), uuid, caller.accountId, now).None? ==>
                r == NotFound && Snapshot() == old(Snapshot()) && events == old(events)
      ensures caller.User? && FirstLiveChat(old(chats), uuid, caller.accountId, now).Some? ==>
                var i := FirstLiveChat(old(chats), uuid, caller.accountId, now).value;
                var before := old(chats)[i];
                var c := if before.status == Open then before.(status := Active, updatedAt := now) else before;
                var p := NewParticipant(|old(participants)| + 1, participantUuid, caller.accountId, caller.uuid,
                                        caller.userId, UserType, caller.name, caller.email, now);
                var members := ChatMembers(Snapshot(), c.id, now);
                var m := NewMessage(|old(messages)| + 1, messageUuid, c.id, caller.accountId, SystemAuthor,
                                    JoinedText(caller.name), now);
                var joined := [
                  Event(ParticipantJoined, now, RawJoined(p, c, members), JoinedPayload(CleanParticipant(p), c.uuid)),
                  Event(MessageCreated, now, RawJoined(p, c, members), MessagePayload(SystemMessageCreated(m, c.uuid)))];
                && participants == old(participants) + [p]
                && memberships == old(memberships) + [NewMembership(|old(memberships)| + 1, c.id, p.id, now)]
                && messages == old(messages) + [m]
                && chats == old(chats)[i := c]
                && members == ChatMembers(old(Snapshot()), c.id, now) + [p]
                && c.status != Open
                && (before.status == Open ==>
                      events == old(events) + [Event(ChatUpdated, now, RawChatRow(c), ChatPayload(CleanChat(c)))] + joined)
                && (before.status != Open ==> events == old(events) + joined)
                && r == Ok(Joined(c.uuid, CleanParticipant(p)))
    {
      if !caller.User? {
        return NotFound;
      }
      var found := FirstLiveChat(chats, uuid, caller.accountId, now);
      if found.None? {
        return NotFound;
      }
      r := JoinAt(found.value, caller, now, participantUuid, messageUuid);
    }

    /** The part of `join` after the chat at position `i` was found. */
    method JoinAt(i: nat, caller: Caller, now: Time, participantUuid: Uuid, messageUuid: Uuid)
      returns (r: Response<Joined>)
      requires Valid() && caller.User? && i < |chats|
      modifies this
      ensures Valid()
      ensures |chats| == |old(chats)| && chats == old(chats)[i := chats[i]]
      ensures old(chats)[i].status == Open ==> chats[i] == old(chats)[i].(status := Active, updatedAt := now)
      ensures old(chats)[i].status != Open ==> chats[i] == old(chats)[i]
      ensures participants == old(participants) + [NewParticipant(|old(participants)| + 1, participantUuid,
                caller.accountId, caller.uuid, caller.userId, UserType, caller.name, caller.email, now)]
      ensures memberships == old(memberships) + [NewMembership(|old(memberships)| + 1, chats[i].id, |old(participants)| + 1, now)]
      ensures messages == old(messages) + [NewMessage(|old(messages)| + 1, messageUuid, chats[i].id, caller.accountId,
                                                      SystemAuthor, JoinedText(caller.name), now)]
      ensures ChatMembers(Snapshot(), chats[i].id, now) ==
              ChatMembers(old(Snapshot()), chats[i].id, now) + [participants[|old(participants)|]]
      ensures var c := chats[i];
              var p := participants[|old(participants)|];
              var members := ChatMembers(Snapshot(), c.id, now);
              var m := messages[|old(messages)|];
              var joined := [
                Event(ParticipantJoined, now, RawJoined(p, c, members), JoinedPayload(CleanParticipant(p), c.uuid)),
                Event(MessageCreated, now, RawJoined(p, c, members), MessagePayload(SystemMessageCreated(m, c.uuid)))];
              && (old(chats)[i].status == Open ==>
                    events == old(events) + [Event(ChatUpdated, now, RawChatRow(c), ChatPayload(CleanChat(c)))] + joined)
              && (old(chats)[i].status != Open ==> events == old(events) + joined)
      ensures r == Ok(Joined(chats[i].uuid, CleanParticipant(participants[|old(participants)|])))
    {
      var chat := chats[i];
      var p := NewParticipant(|participants| + 1, participantUuid, caller.accountId, caller.uuid,
                              caller.userId, UserType, caller.name, caller.email, now);
      CreateParticipant(chat, p, now);
      if chat.status == Open {
        Activate(i, now);
        chat := chats[i];
      }
      r := AnnounceJoin(chat, p, caller.accountId, caller.name, now, messageUuid);
    }

    /** The announcements of `join`: PARTICIPANT_JOINED, then the system
        message "… has joined the room" with its MESSAGE_CREATED, both
        carrying the chat and its members as they now are. */
    method AnnounceJoin(c: Chat, p: Participant, accountId: AccountId, name: Option<string>, now: Time, messageUuid: Uuid)
      returns (r: Response<Joined>)
      requires Valid() && c in chats
      modifies this
      ensures Valid()
      ensures chats == old(chats) && participants == old(participants) && memberships == old(memberships)
      ensures messages == old(messages) + [NewMessage(|old(messages)| + 1, messageUuid, c.id, accountId,
                                                      SystemAuthor, JoinedText(name), now)]
      ensures var members := ChatMembers(Snapshot(), c.id, now);
              var m := messages[|old(messages)|];
              events == old(events) + [
                Event(ParticipantJoined, now, RawJoined(p, c, members), JoinedPayload(CleanParticipant(p), c.uuid)),
                Event(MessageCreated, now, RawJoined(p, c, members), MessagePayload(SystemMessageCreated(m, c.uuid)))]
      ensures r == Ok(Joined(c.uuid, CleanParticipant(p)))
    {
      var raw := RawJoined(p, c, ChatMembers(Snapshot(), c.id, now));
      Publish(Event(ParticipantJoined, now, raw, JoinedPayload(CleanParticipant(p), c.uuid)));
      var m := PostSystemMessage(c, accountId, JoinedText(name), raw, now, messageUuid);
      r := Ok(Joined(c.uuid, CleanParticipant(p)));
    }

    /** `createMessage`: the caller posts into a chat it may address, as the
        first member of the chat that stands for it. The message is written
        with the author's internal id and the caller's tenant, answered with
        the author's public id and role, and published as MESSAGE_CREATED.
        When the chat is not addressable or the caller is not a member the
        answer is NotFound and nothing changes. */
    method CreateMessage(caller: Caller, uuid: Uuid, text: string, now: Time, messageUuid: Uuid)
      returns (r: Response<MessageCreatedView>)
      requires Valid()
      modifies this
      ensures Valid()
      ensures var found := AccessibleChat(old(Snapshot()), caller, uuid, now);
              found.None? || Poster(ChatMembers(old(Snapshot()), found.value.id, now), caller).None? ==>
                r == NotFound && Snapshot() == old(Snapshot()) && events == old(events)
      ensures var found := AccessibleChat(old(Snapshot()), caller, uuid, now);
              found.Some? && Poster(ChatMembers(old(Snapshot()), found.value.id, now), caller).Some? ==>
                var c := found.value;
                var members := ChatMembers(old(Snapshot()), c.id, now);
                var author := Poster(members, caller).value;
                var m := NewMessage(|old(messages)| + 1, messageUuid, c.id, AccountOf(caller).value,
                                    ParticipantAuthor(author.id), text, now);
                && chats == old(chats) && participants == old(participants) && memberships == old(memberships)
                && messages == old(messages) + [m]
                && r == Ok(MessageCreatedView(CleanMessage(m), author.uuid, RealTypeName(author.realType), c.uuid))
                && AuthorId(ChatMembers(Snapshot(), c.id, now), m) == Some(r.body.participantId)
                && events == old(events) + [Event(MessageCreated, now, RawMessage(m, c, members), MessagePayload(r.body))]
    {
      var found := AccessibleChat(Snapshot(), caller, uuid, now);
      if found.None? {
        return NotFound;
      }
      var c := found.value;
      var members := ChatMembers(Snapshot(), c.id, now);
      var poster := Poster(members, caller);
      if poster.None? {
        return NotFound;
      }
      var author := poster.value;
      var m := NewMessage(|messages| + 1, messageUuid, c.id, AccountOf(caller).value, ParticipantAuthor(author.id), text, now);
      StoredChat(Snapshot(), c, now);
      MemberIsLinked(Snapshot(), c.id, now, author);
      ghost var j := FirstIndex(members, (p: Participant) => p.id == author.id).value;
      MembersAreKeyedById(Snapshot(), c.id, now, members[j], author);
      InsertMessageRow(m);
      var clean := MessageCreatedView(CleanMessage(m), author.uuid, RealTypeName(author.realType), c.uuid);
      Publish(Event(MessageCreated, now, RawMessage(m, c, members), MessagePayload(clean)));
      r := Ok(clean);
    }

    /** `composeMessage`: a typing notice. Nothing is stored and nothing is
        checked; MESSAGE_COMPOSED carries the token's ids and the chat uuid
        and text of the request. */
    method ComposeMessage(caller: Caller, uuid: Uuid, text: string, now: Time) returns (r: Response<()>)
      requires Valid()
      modifies this
      ensures Valid() && Snapshot() == old(Snapshot())
      ensures events == old(events) + [Event(MessageComposed, now, RawComposer(ComposerId(caller), AccountOf(caller)),
                                             ComposedPayload(uuid, text))]
      ensures r == Ok(())
    {
      Publish(Event(MessageComposed, now, RawComposer(ComposerId(caller), AccountOf(caller)), ComposedPayload(uuid, text)));
      r := Ok(());
    }

    /** `updateParticipantPromise`: an identity broadcast rewrites the cached
        name and email of every live participant of the broadcast's role
        whose realId is the broadcast's clientId, in every tenant, and
        publishes PARTICIPANT_UPDATED for the first rewritten row only, or
        nothing when no row matched. */
    method UpdateParticipant(data: IdentityBroadcast, now: Time)
      requires Valid()
      modifies this
      ensures Valid()
      ensures var t := BroadcastType(data.event);
              && participants == WithIdentity(old(participants), t, data.clientId, data.name, data.email, now)
              && chats == old(chats) && memberships == old(memberships) && messages == old(messages)
              && (FirstTarget(old(participants), t, data.clientId, now).None? ==> events == old(events))
              && (FirstTarget(old(participants), t, data.clientId, now).Some? ==>
                    var p := participants[FirstTarget(old(participants), t, data.clientId, now).value];
                    events == old(events) + [Event(ParticipantUpdated, now, RawParticipant(p),
                                                   ParticipantPayload(CleanParticipant(p)))])
    {
      var t := BroadcastType(data.event);
      var first := FirstTarget(participants, t, data.clientId, now);
      var updated := WithIdentity(participants, t, data.clientId, data.name, data.email, now);
      RewriteParticipants(Snapshot(), updated);
      participants := updated;
      if first.Some? {
        var p := participants[first.value];
        Publish(Event(ParticipantUpdated, now, RawParticipant(p), ParticipantPayload(CleanParticipant(p))));
      }
    }
  }
}
