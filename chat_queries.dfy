/** The read-only handlers of src/v1_0/controllers/chat.js: `getChats`,
    `getChat` and the RPC responder `getChatPromise`, as functions of the
    tables, the caller and the clock. */
module ChatQueries {
  import opened Common
  import opened ParticipantModel
  import opened ChatModel
  import opened MessageModel
  import opened Database

  /** One entry of the `getChats` list. */
  datatype ChatSummary = ChatSummary(
    chat: ChatView,
    participants: seq<ParticipantView>,
    latestMessage: Option<AttributedMessage>)

  /** The `getChats` body `{ count, chats }`. */
  datatype ChatList = ChatList(count: nat, chats: seq<ChatSummary>)

  /** The live chats of a tenant, in table order. */
  function AccountChats(cs: seq<Chat>, accountId: AccountId, now: Time): (r: seq<Chat>)
    ensures forall c :: c in r <==> c in cs && c.accountId == accountId && Live(c.deletedAt, now)
    ensures forall c {:trigger multiset(r)[c]} :: multiset(r)[c] == if c.accountId == accountId && Live(c.deletedAt, now) then multiset(cs)[c] else 0
  {
    if cs == [] then []
    else
      var rest := AccountChats(cs[1..], accountId, now);
      assert cs == [cs[0]] + cs[1..];
      if cs[0].accountId == accountId && Live(cs[0].deletedAt, now) then [cs[0]] + rest else rest
  }

  /** The public id shown for the latest message's author: the uuid of the
      first member whose id is the author's; an author that is not among the
      members is taken to be the system and shown as the system sentinel. */
  function LatestAuthorId(members: seq<Participant>, m: Message): (r: string)
    ensures m.author.SystemAuthor? ==> r == SYSTEM_PARTICIPANT_ID
    ensures m.author.ParticipantAuthor? ==>
              match FirstIndex(members, (p: Participant) => p.id == m.author.id)
              case Some(i) => r == members[i].uuid
              case None => r == SYSTEM_PARTICIPANT_ID
  {
    match m.author
    case SystemAuthor => SYSTEM_PARTICIPANT_ID
    case ParticipantAuthor(id) =>
      match FirstIndex(members, (p: Participant) => p.id == id)
      case None => SYSTEM_PARTICIPANT_ID
      case Some(i) => members[i].uuid
  }

  /** The chat's latest live message (`limit: 1`, newest first). */
  function LatestMessage(db: Db, c: Chat, now: Time): Option<AttributedMessage> {
    var ms := NewestFirst(ChatMessages(db.messages, c.id, now));
    if ms == [] then None
    else Some(AttributedMessage(CleanMessage(ms[0]), LatestAuthorId(ChatMembers(db, c.id, now), ms[0])))
  }

  function Summary(db: Db, c: Chat, now: Time): ChatSummary {
    var room := Room(db, c, now);
    ChatSummary(room.chat, room.participants, LatestMessage(db, c, now))
  }

  /** `getChats`: every live chat of the caller's tenant, summarised. A
      caller without a tenant matches no row. */
  function GetChats(db: Db, caller: Caller, now: Time): (r: Response<ChatList>)
    ensures r.Ok? && r.body.count == |r.body.chats|
  {
    match AccountOf(caller)
    case None => Ok(ChatList(0, []))
    case Some(a) =>
      var cs := AccountChats(db.chats, a, now);
      var list := seq(|cs|, i requires 0 <= i < |cs| => Summary(db, cs[i], now));
      Ok(ChatList(|list|, list))
  }

  /** `getChats` lists exactly the live chats of the caller's tenant, each
      with its members' clean projection. */
  lemma GetChatsIsTenantScoped(db: Db, caller: Caller, now: Time)
    ensures var list := GetChats(db, caller, now).body.chats;
            && (caller.NoIdentity? ==> list == [])
            && (forall s :: s in list ==> caller.Client? || caller.User?)
            && (forall s :: s in list ==> s.chat.accountId == AccountOf(caller).value)
            && (forall c :: c in db.chats && AccountOf(caller) == Some(c.accountId) && Live(c.deletedAt, now) ==>
                  Summary(db, c, now) in list)
            && (forall s :: s in list ==>
                  (exists c :: c in db.chats && AccountOf(caller) == Some(c.accountId) &&
                     Live(c.deletedAt, now) && s == Summary(db, c, now)))
  {
    var list := GetChats(db, caller, now).body.chats;
    if caller.Client? || caller.User? {
      var cs := AccountChats(db.chats, AccountOf(caller).value, now);
      forall c | c in db.chats && AccountOf(caller) == Some(c.accountId) && Live(c.deletedAt, now)
        ensures Summary(db, c, now) in list
      {
        var i :| 0 <= i < |cs| && cs[i] == c;
        assert list[i] == Summary(db, c, now);
      }
      forall s | s in list
        ensures exists c :: c in db.chats && AccountOf(caller) == Some(c.accountId) &&
                  Live(c.deletedAt, now) && s == Summary(db, c, now)
      {
        var i :| 0 <= i < |list| && list[i] == s;
        assert cs[i] in cs;
      }
    }
  }

  /** The latest message is a live message of the chat at least as new as
      every other, attributed to its author's uuid when the author is a
      member and to the sentinel otherwise; there is none iff the chat has
      no live message. */
  lemma LatestMessageIsNewest(db: Db, c: Chat, now: Time)
    ensures var latest := LatestMessage(db, c, now);
            && (latest.None? <==> forall m :: m in db.messages ==> !(m.chatId == c.id && Live(m.deletedAt, now)))
            && (latest.Some? ==>
                  exists m :: m in db.messages && m.chatId == c.id && Live(m.deletedAt, now) &&
                    latest.value.message == CleanMessage(m) &&
                    latest.value.participantId == LatestAuthorId(ChatMembers(db, c.id, now), m) &&
                    forall n :: n in db.messages && n.chatId == c.id && Live(n.deletedAt, now) ==> NewerOrSame(m, n))
  {
    var chatMs := ChatMessages(db.messages, c.id, now);
    var ms := NewestFirst(chatMs);
    if ms == [] {
      forall m | m in db.messages ensures !(m.chatId == c.id && Live(m.deletedAt, now)) {
        assert m !in multiset(chatMs);
      }
    } else {
      var m := ms[0];
      assert m in multiset(chatMs);
      forall n | n in db.messages && n.chatId == c.id && Live(n.deletedAt, now) ensures NewerOrSame(m, n) {
        NewestFirstHead(chatMs, n);
      }
    }
  }

  /** `getChat`. A user reads any chat of the tenant by uuid; when none
      matches, the handler dereferences a null chat and answers with an
      error. A client needs `findWhereParticipant` to find the chat; the
      chat is then re-read by id. A caller with neither id gets no
      answer at all. */
  function GetChat(db: Db, caller: Caller, uuid: Uuid, now: Time): Response<ChatRoom> {
    match caller
    case User(_, accountId, _, _, _) =>
      (match FirstLiveChat(db.chats, uuid, accountId, now)
       case None => Error
       case Some(i) => Ok(Room(db, db.chats[i], now)))
    case Client(clientId, accountId, _) =>
      var rows := FindWhereParticipant(db.chats, db.participants, db.memberships,
                                       Some(clientId), None, uuid, accountId, now);
      if rows == [] then NotFound
      else
        (match LiveChatById(db.chats, rows[0].chat.id, now)
         case None => Error
         case Some(c) => Ok(Room(db, c, now)))
    case NoIdentity => NoResponse
  }

  /** What `getChat` answers, for each kind of caller, in a well-formed
      store: a user sees every live chat of the tenant without being a
      member; a client sees a chat iff it is a live member of it, else
      NotFound. */
  lemma GetChatVisibility(db: Db, caller: Caller, uuid: Uuid, now: Time)
    requires WellFormed(db)
    ensures caller.NoIdentity? ==> GetChat(db, caller, uuid, now) == NoResponse
    ensures caller.User? ==>
              match FirstLiveChat(db.chats, uuid, caller.accountId, now)
              case None => GetChat(db, caller, uuid, now) == Error
              case Some(i) => GetChat(db, caller, uuid, now) == Ok(Room(db, db.chats[i], now))
    ensures caller.Client? ==>
              var rows := FindWhereParticipant(db.chats, db.participants, db.memberships,
                                               Some(caller.clientId), None, uuid, caller.accountId, now);
              && (rows == [] ==> GetChat(db, caller, uuid, now) == NotFound)
              && (rows != [] ==>
                    var i := FirstLiveChat(db.chats, uuid, caller.accountId, now).value;
                    GetChat(db, caller, uuid, now) == Ok(Room(db, db.chats[i], now)))
  {
    if caller.Client? &&
       FindWhereParticipant(db.chats, db.participants, db.memberships,
                            Some(caller.clientId), None, uuid, caller.accountId, now) != [] {
      ClientChatInWellFormed(db, caller.clientId, uuid, caller.accountId, now);
    }
  }

  /** The RPC answer: an error object, the chat, or `undefined` when the
      lookup failed (the failure is only logged). */
  datatype RpcReply =
    | RpcError(reason: string)
    | RpcChat(chat: ChatView, participants: seq<RpcParticipantView>)
    | RpcUndefined

  function RpcParticipants(ps: seq<Participant>): (r: seq<RpcParticipantView>)
    ensures |r| == |ps| && forall i :: 0 <= i < |ps| ==> r[i] == RpcParticipant(ps[i])
  {
    seq(|ps|, i requires 0 <= i < |ps| => RpcParticipant(ps[i]))
  }

  /** `getChatPromise(uuid, accountId)`: the chat with its members'
      clean attributes plus realId and accountId, for internal callers. */
  function GetChatPromise(db: Db, uuid: Option<Uuid>, accountId: AccountId, now: Time): (r: RpcReply)
    ensures uuid.None? ==> r == RpcError("Invalid user id")
    ensures uuid.Some? ==>
              match FirstLiveChat(db.chats, uuid.value, accountId, now)
              case None => r == RpcUndefined
              case Some(i) =>
                && r.RpcChat?
                && r.chat == CleanChat(db.chats[i])
                && r.chat.uuid == uuid.value && r.chat.accountId == accountId
                && |r.participants| == |ChatMembers(db, db.chats[i].id, now)|
                && forall k :: 0 <= k < |r.participants| ==>
                     var p := ChatMembers(db, db.chats[i].id, now)[k];
                     r.participants[k].view == CleanParticipant(p) &&
                     r.participants[k].realId == p.realId && r.participants[k].accountId == p.accountId
  {
    match uuid
    case None => RpcError("Invalid user id")
    case Some(u) =>
      match FirstLiveChat(db.chats, u, accountId, now)
      case None => RpcUndefined
      case Some(i) =>
        var c := db.chats[i];
        RpcChat(CleanChat(c), RpcParticipants(ChatMembers(db, c.id, now)))
  }
}
