/** `getParticipants` (src/v1_0/controllers/participants.js): the clean
    member list of a chat, under the same visibility rule as `getChat`. */
module ParticipantQueries {
  import opened Common
  import opened ParticipantModel
  import opened ChatModel
  import opened Database

  /** The chat `getParticipants` goes on with: a user's tenant chat by uuid,
      or the chat `findWhereParticipant` joins the caller's client identity
      to. A caller without a client id matches nothing there. */
  function ParticipantsChat(db: Db, caller: Caller, uuid: Uuid, now: Time): (r: Option<Chat>)
    ensures r.Some? ==> !caller.NoIdentity? && r.value in db.chats
    ensures r.Some? ==> ChatIs(r.value, uuid, AccountOf(caller).value, now)
  {
    match caller
    case User(_, accountId, _, _, _) =>
      (match FirstLiveChat(db.chats, uuid, accountId, now)
       case None => None
       case Some(i) => Some(db.chats[i]))
    case Client(clientId, accountId, _) =>
      var rows := FindWhereParticipant(db.chats, db.participants, db.memberships,
                                       Some(clientId), None, uuid, accountId, now);
      if rows == [] then None
      else
        FindWhereParticipantNonEmpty(db.chats, db.participants, db.memberships,
                                     Some(clientId), None, uuid, accountId, now);
        Some(rows[0].chat)
    case NoIdentity => None
  }

  /** `getParticipants`: a caller with neither identity sends a query with
      an undefined tenant, which the database layer rejects, and is answered
      Error; otherwise NotFound when no chat is found; otherwise the chat is
      re-read by id and its members' clean attributes are answered (a
      vanished chat is dereferenced and fails). */
  function GetParticipants(db: Db, caller: Caller, uuid: Uuid, now: Time): Response<seq<ParticipantView>> {
    if caller.NoIdentity? then Error
    else
      match ParticipantsChat(db, caller, uuid, now)
      case None => NotFound
      case Some(found) =>
        match LiveChatById(db.chats, found.id, now)
        case None => Error
        case Some(chat) => Ok(CleanParticipants(ChatMembers(db, chat.id, now)))
  }

  /** Who may list a chat's members, in a well-formed store: a user of the
      tenant, for any live chat of it; a client, only for a chat it is a
      live member of; a caller with no identity fails. The list is the tenant's first live chat
      with the uuid, its members' clean views in link-row order. */
  lemma GetParticipantsVisibility(db: Db, caller: Caller, uuid: Uuid, now: Time)
    requires WellFormed(db)
    ensures GetParticipants(db, caller, uuid, now) == Error <==> caller.NoIdentity?
    ensures caller.User? ==>
              (GetParticipants(db, caller, uuid, now).NotFound? <==>
                 forall j :: 0 <= j < |db.chats| ==> !ChatIs(db.chats[j], uuid, caller.accountId, now))
    ensures caller.Client? ==>
              (GetParticipants(db, caller, uuid, now).NotFound? <==>
                 !exists i, k :: FirstLiveChat(db.chats, uuid, caller.accountId, now) == Some(i) &&
                    0 <= k < |db.memberships| &&
                    exists p :: MemberVia(db.participants, db.memberships[k], db.chats[i].id, now, p) &&
                      p.realId == caller.clientId && p.realType == ClientType)
    ensures GetParticipants(db, caller, uuid, now).Ok? ==>
              var i := FirstLiveChat(db.chats, uuid, AccountOf(caller).value, now).value;
              GetParticipants(db, caller, uuid, now) == Ok(CleanParticipants(ChatMembers(db, db.chats[i].id, now)))
  {
    if caller.Client? {
      var rows := FindWhereParticipant(db.chats, db.participants, db.memberships,
                                       Some(caller.clientId), None, uuid, caller.accountId, now);
      FindWhereParticipantNonEmpty(db.chats, db.participants, db.memberships,
                                   Some(caller.clientId), None, uuid, caller.accountId, now);
      if rows != [] {
        ClientChatInWellFormed(db, caller.clientId, uuid, caller.accountId, now);
      }
    } else if caller.User? && FirstLiveChat(db.chats, uuid, caller.accountId, now).Some? {
      ByIdInWellFormed(db, FirstLiveChat(db.chats, uuid, caller.accountId, now).value + 1);
    }
  }

  /** Every listed view is the clean view of a live participant with a live
      link row to the chat, and every such participant is listed. */
  lemma GetParticipantsListsMembers(db: Db, caller: Caller, uuid: Uuid, now: Time)
    requires GetParticipants(db, caller, uuid, now).Ok?
    ensures var chat := LiveChatById(db.chats, ParticipantsChat(db, caller, uuid, now).value.id, now).value;
            var list := GetParticipants(db, caller, uuid, now).body;
            && (forall v :: v in list ==>
                  exists p, k :: 0 <= k < |db.memberships| &&
                    MemberVia(db.participants, db.memberships[k], chat.id, now, p) && v == CleanParticipant(p))
            && (forall p, k ::
                  (0 <= k < |db.memberships| && MemberVia(db.participants, db.memberships[k], chat.id, now, p)) ==>
                    CleanParticipant(p) in list)
  {
    var chat := LiveChatById(db.chats, ParticipantsChat(db, caller, uuid, now).value.id, now).value;
    var members := ChatMembers(db, chat.id, now);
    var list := GetParticipants(db, caller, uuid, now).body;
    forall v | v in list
      ensures exists p, k :: 0 <= k < |db.memberships| &&
                MemberVia(db.participants, db.memberships[k], chat.id, now, p) && v == CleanParticipant(p)
    {
      var j :| 0 <= j < |list| && list[j] == v;
      MembersExactly(db.participants, db.memberships, chat.id, now, members[j]);
    }
    forall p, k | 0 <= k < |db.memberships| && MemberVia(db.participants, db.memberships[k], chat.id, now, p)
      ensures CleanParticipant(p) in list
    {
      MembersExactly(db.participants, db.memberships, chat.id, now, p);
      var j :| 0 <= j < |members| && members[j] == p;
      assert list[j] == CleanParticipant(p);
    }
  }
}
