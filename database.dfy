/** The four tables the handlers read and write, and the invariant the
    handlers keep on them: autoincrement ids, link rows and messages that
    point at existing rows, and message authors that are members. */
module Database {
  import opened Common
  import opened ParticipantModel
  import opened ChatModel
  import opened MessageModel

  datatype Db = Db(
    chats: seq<Chat>,
    participants: seq<Participant>,
    memberships: seq<Membership>,
    messages: seq<Message>)

  /** A message is system-authored, or its author has a link row to the
      message's chat. */
  predicate AuthorIsMember(ms: seq<Membership>, m: Message) {
    || m.author.SystemAuthor?
    || exists j :: 0 <= j < |ms| && ms[j].chatId == m.chatId && ms[j].participantId == m.author.id
  }

  predicate WellFormed(db: Db) {
    && (forall i :: 0 <= i < |db.chats| ==> db.chats[i].id == i + 1)
    && (forall i :: 0 <= i < |db.participants| ==> db.participants[i].id == i + 1)
    && (forall i :: 0 <= i < |db.memberships| ==>
          && db.memberships[i].id == i + 1
          && 1 <= db.memberships[i].chatId <= |db.chats|
          && 1 <= db.memberships[i].participantId <= |db.participants|)
    && (forall i :: 0 <= i < |db.messages| ==>
          && db.messages[i].id == i + 1
          && 1 <= db.messages[i].chatId <= |db.chats|
          && AuthorIsMember(db.memberships, db.messages[i]))
  }

  /** The participants of a chat (`chat.getParticipants()`). */
  function ChatMembers(db: Db, chatId: nat, now: Time): seq<Participant> {
    Members(db.participants, db.memberships, chatId, now)
  }

  /** The clean projection of a list of participant rows. */
  function CleanParticipants(ps: seq<Participant>): (r: seq<ParticipantView>)
    ensures |r| == |ps| && forall i :: 0 <= i < |ps| ==> r[i] == CleanParticipant(ps[i])
  {
    seq(|ps|, i requires 0 <= i < |ps| => CleanParticipant(ps[i]))
  }

  /** `cleanRoom`: the clean chat with the clean projection of its members. */
  function Room(db: Db, c: Chat, now: Time): ChatRoom {
    ChatRoom(CleanChat(c), CleanParticipants(ChatMembers(db, c.id, now)))
  }

  /** With autoincrement ids, a primary-key lookup finds the row at
      position id - 1. */
  lemma ByIdInWellFormed(db: Db, id: nat)
    requires WellFormed(db)
    ensures 1 <= id <= |db.participants| ==> ParticipantById(db.participants, id) == Some(db.participants[id - 1])
    ensures forall now :: 1 <= id <= |db.chats| && Live(db.chats[id - 1].deletedAt, now) ==>
              LiveChatById(db.chats, id, now) == Some(db.chats[id - 1])
  {
  }

  /** The chat `findWhereParticipant` joins a client to is the tenant's
      first live chat with the uuid, and re-reading it by id finds it. */
  lemma ClientChatInWellFormed(db: Db, clientId: ExternalId, uuid: Uuid, accountId: AccountId, now: Time)
    requires WellFormed(db)
    requires FindWhereParticipant(db.chats, db.participants, db.memberships, Some(clientId), None, uuid, accountId, now) != []
    ensures FirstLiveChat(db.chats, uuid, accountId, now).Some?
    ensures var rows := FindWhereParticipant(db.chats, db.participants, db.memberships, Some(clientId), None, uuid, accountId, now);
            var i := FirstLiveChat(db.chats, uuid, accountId, now).value;
            rows[0].chat == db.chats[i] && LiveChatById(db.chats, rows[0].chat.id, now) == Some(db.chats[i])
  {
    var rows := FindWhereParticipant(db.chats, db.participants, db.memberships, Some(clientId), None, uuid, accountId, now);
    var i := FirstLiveChat(db.chats, uuid, accountId, now).value;
    assert rows[0].chat == db.chats[i] && rows[0].chat.id == i + 1;
    assert Live(db.chats[i].deletedAt, now);
    ByIdInWellFormed(db, i + 1);
  }

  /** A stored chat sits at position id - 1, and a live one is what a
      lookup by its id finds. */
  lemma StoredChat(db: Db, c: Chat, now: Time)
    requires WellFormed(db) && c in db.chats
    ensures 1 <= c.id <= |db.chats| && db.chats[c.id - 1] == c
    ensures Live(c.deletedAt, now) ==> LiveChatById(db.chats, c.id, now) == Some(c)
  {
    var i :| 0 <= i < |db.chats| && db.chats[i] == c;
    ByIdInWellFormed(db, i + 1);
  }

  /** A stored participant sits at position id - 1 and is what a lookup by
      its id finds. */
  lemma StoredParticipant(db: Db, p: Participant)
    requires WellFormed(db) && p in db.participants
    ensures 1 <= p.id <= |db.participants| && db.participants[p.id - 1] == p
    ensures ParticipantById(db.participants, p.id) == Some(p)
  {
    var i :| 0 <= i < |db.participants| && db.participants[i] == p;
    ByIdInWellFormed(db, i + 1);
  }

  /** A member of a chat is linked to it by a link row naming its id. */
  lemma MemberIsLinked(db: Db, chatId: nat, now: Time, p: Participant)
    requires p in ChatMembers(db, chatId, now)
    ensures exists k :: 0 <= k < |db.memberships| &&
              db.memberships[k].chatId == chatId && db.memberships[k].participantId == p.id
  {
    MembersExactly(db.participants, db.memberships, chatId, now, p);
  }

  /** Two members of a chat with the same id are the same row. */
  lemma MembersAreKeyedById(db: Db, chatId: nat, now: Time, p: Participant, q: Participant)
    requires p in ChatMembers(db, chatId, now) && q in ChatMembers(db, chatId, now) && p.id == q.id
    ensures p == q
  {
    MembersExactly(db.participants, db.memberships, chatId, now, p);
    MembersExactly(db.participants, db.memberships, chatId, now, q);
  }

  /** Inserting a chat with the next id keeps the store well formed. */
  lemma InsertChat(db: Db, c: Chat)
    requires WellFormed(db) && c.id == |db.chats| + 1
    ensures WellFormed(db.(chats := db.chats + [c]))
  {
  }

  /** Inserting a participant with the next id keeps the store well formed. */
  lemma InsertParticipant(db: Db, p: Participant)
    requires WellFormed(db) && p.id == |db.participants| + 1
    ensures WellFormed(db.(participants := db.participants + [p]))
  {
  }

  /** Inserting a link row between stored rows keeps the store well formed. */
  lemma InsertMembership(db: Db, m: Membership)
    requires WellFormed(db) && m.id == |db.memberships| + 1
    requires 1 <= m.chatId <= |db.chats| && 1 <= m.participantId <= |db.participants|
    ensures WellFormed(db.(memberships := db.memberships + [m]))
  {
    var db' := db.(memberships := db.memberships + [m]);
    forall i | 0 <= i < |db.messages| ensures AuthorIsMember(db'.memberships, db.messages[i]) {
      if !db.messages[i].author.SystemAuthor? {
        var j :| 0 <= j < |db.memberships| && db.memberships[j].chatId == db.messages[i].chatId &&
                 db.memberships[j].participantId == db.messages[i].author.id;
        assert db'.memberships[j] == db.memberships[j];
      }
    }
  }

  /** Inserting a message of a stored chat, written by the system or by one
      of the chat's members, keeps the store well formed. */
  lemma InsertMessage(db: Db, m: Message)
    requires WellFormed(db) && m.id == |db.messages| + 1
    requires 1 <= m.chatId <= |db.chats| && AuthorIsMember(db.memberships, m)
    ensures WellFormed(db.(messages := db.messages + [m]))
  {
  }

  /** Rewriting chat rows in place, ids kept, keeps the store well formed. */
  lemma RewriteChats(db: Db, cs: seq<Chat>)
    requires WellFormed(db) && |cs| == |db.chats|
    requires forall i :: 0 <= i < |cs| ==> cs[i].id == db.chats[i].id
    ensures WellFormed(db.(chats := cs))
  {
  }

  /** Rewriting participant rows in place, ids kept, keeps the store well
      formed. */
  lemma RewriteParticipants(db: Db, ps: seq<Participant>)
    requires WellFormed(db) && |ps| == |db.participants|
    requires forall i :: 0 <= i < |ps| ==> ps[i].id == db.participants[i].id
    ensures WellFormed(db.(participants := ps))
  {
  }
}
