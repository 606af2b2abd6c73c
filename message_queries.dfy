/** The read side of src/v1_0/controllers/messages.js: which chat a caller
    may address, and `getMessages`, the cursor-paged, newest-first read of
    a chat's ledger with author attribution. */
module MessageQueries {
  import opened Common
  import opened ParticipantModel
  import opened ChatModel
  import opened MessageModel
  import opened Database

  const DEFAULT_PAGE_SIZE: nat := 20
  /** Without `fromDate` the cursor is one second past the current time. */
  const DEFAULT_CURSOR_SLACK: int := 1000

  function Cursor(fromDate: Option<Time>, now: Time): Time {
    match fromDate
    case Some(t) => t
    case None => now + DEFAULT_CURSOR_SLACK
  }

  /** The chats `include: [{ model: Chat, where: { uuid, accountId } }]`
      attaches to participant `pid`: through its live link rows, the live
      chats with that uuid and tenant. */
  function ParticipantChats(cs: seq<Chat>, ms: seq<Membership>, pid: nat, uuid: Uuid,
                            accountId: AccountId, now: Time): (r: seq<Chat>)
    ensures forall c :: c in r ==> c in cs && ChatIs(c, uuid, accountId, now)
    ensures r != [] <==>
              exists k :: 0 <= k < |ms| && ms[k].participantId == pid && Live(ms[k].deletedAt, now) &&
                LinkedChatIs(cs, ms[k], uuid, accountId, now)
  {
    if ms == [] then []
    else
      var rest := ParticipantChats(cs, ms[1..], pid, uuid, accountId, now);
      assert forall k :: 1 <= k < |ms| ==> ms[k] == ms[1..][k - 1];
      if ms[0].participantId == pid && Live(ms[0].deletedAt, now) && LinkedChatIs(cs, ms[0], uuid, accountId, now)
      then [LiveChatById(cs, ms[0].chatId, now).value] + rest
      else rest
  }

  /** The link row leads to a live chat with the given uuid and tenant. */
  predicate LinkedChatIs(cs: seq<Chat>, m: Membership, uuid: Uuid, accountId: AccountId, now: Time) {
    match LiveChatById(cs, m.chatId, now)
    case None => false
    case Some(c) => c.uuid == uuid && c.accountId == accountId
  }

  /** The caller's own live participant row in the tenant is linked to the
      chat (the `Participant.findOne` branch). */
  predicate ClientReaches(db: Db, p: Participant, clientId: ExternalId, uuid: Uuid,
                          accountId: AccountId, now: Time)
  {
    HasIdentity(p, clientId, ClientType, accountId, now) &&
    ParticipantChats(db.chats, db.memberships, p.id, uuid, accountId, now) != []
  }

  /** The chat `getMessages` and `createMessage` go on with: for a user, the
      tenant's first live chat with the uuid (`Chat.findAll`); for anyone
      else, the first chat of the first live participant row with the
      caller's client identity in the caller's tenant that is linked to it. */
  function AccessibleChat(db: Db, caller: Caller, uuid: Uuid, now: Time): (r: Option<Chat>)
    ensures r.Some? ==> !caller.NoIdentity? && r.value in db.chats
    ensures r.Some? ==> ChatIs(r.value, uuid, AccountOf(caller).value, now)
  {
    match caller
    case User(_, accountId, _, _, _) =>
      (match FirstLiveChat(db.chats, uuid, accountId, now)
       case None => None
       case Some(i) => Some(db.chats[i]))
    case Client(clientId, accountId, _) =>
      (match FirstIndex(db.participants, (p: Participant) => ClientReaches(db, p, clientId, uuid, accountId, now))
       case None => None
       case Some(k) => Some(ParticipantChats(db.chats, db.memberships, db.participants[k].id, uuid, accountId, now)[0]))
    case NoIdentity => None
  }

  /** Who may address a chat through the message endpoints: a user of the
      tenant, any chat of it; a client, only a chat its own live row in the
      same tenant is linked to (here, unlike `findWhereParticipant`, the
      participant's tenant is compared too); no one else. */
  lemma AccessibleChatExactly(db: Db, caller: Caller, uuid: Uuid, now: Time)
    ensures caller.NoIdentity? ==> AccessibleChat(db, caller, uuid, now).None?
    ensures caller.User? ==>
              (AccessibleChat(db, caller, uuid, now).Some? <==>
                 exists j :: 0 <= j < |db.chats| && ChatIs(db.chats[j], uuid, caller.accountId, now))
    ensures caller.Client? ==>
              (AccessibleChat(db, caller, uuid, now).Some? <==>
                 exists p, k :: p in db.participants && HasIdentity(p, caller.clientId, ClientType, caller.accountId, now) &&
                   0 <= k < |db.memberships| && db.memberships[k].participantId == p.id &&
                   Live(db.memberships[k].deletedAt, now) &&
                   LinkedChatIs(db.chats, db.memberships[k], uuid, caller.accountId, now))
  {
    if caller.Client? {
      var reaches := (p: Participant) => ClientReaches(db, p, caller.clientId, uuid, caller.accountId, now);
      if AccessibleChat(db, caller, uuid, now).None? {
        forall p | p in db.participants ensures !reaches(p) {
          var j :| 0 <= j < |db.participants| && db.participants[j] == p;
          assert !reaches(db.participants[j]);
        }
      }
    }
  }

  /** The public id of a message's author: the sentinel for system
      messages, else the uuid of the first member whose id is the author's,
      and nothing when no member has it. */
  function AuthorId(members: seq<Participant>, m: Message): (r: Option<string>)
    ensures m.author.SystemAuthor? ==> r == Some(SYSTEM_PARTICIPANT_ID)
    ensures m.author.ParticipantAuthor? ==>
              match FirstIndex(members, (p: Participant) => p.id == m.author.id)
              case Some(i) => r == Some(members[i].uuid)
              case None => r.None?
  {
    match m.author
    case SystemAuthor => Some(SYSTEM_PARTICIPANT_ID)
    case ParticipantAuthor(id) =>
      match FirstIndex(members, (p: Participant) => p.id == id)
      case None => None
      case Some(i) => Some(members[i].uuid)
  }

  /** Attribute every message, or fail as a whole: `.find(...).uuid` on a
      missing member throws, and the request answers with an error instead
      of a partial page. */
  function Attribute(members: seq<Participant>, ms: seq<Message>): (r: Option<seq<AttributedMessage>>)
    ensures r.None? <==> exists i :: 0 <= i < |ms| && AuthorId(members, ms[i]).None?
    ensures r.Some? ==> |r.value| == |ms|
    ensures r.Some? ==> forall i :: 0 <= i < |ms| ==>
              r.value[i] == AttributedMessage(CleanMessage(ms[i]), AuthorId(members, ms[i]).value)
  {
    if ms == [] then Some([])
    else
      assert forall i :: 1 <= i < |ms| ==> ms[i] == ms[1..][i - 1];
      match AuthorId(members, ms[0])
      case None => None
      case Some(id) =>
        match Attribute(members, ms[1..])
        case None => None
        case Some(rest) => Some([AttributedMessage(CleanMessage(ms[0]), id)] + rest)
  }

  /** The `getMessages` body. */
  datatype MessagePage = MessagePage(hasNextPage: bool, chat: ChatView, messages: seq<AttributedMessage>)

  /** The live messages of the chat before the cursor. */
  function Qualifying(db: Db, chatId: nat, cursor: Time, now: Time): seq<Message> {
    CreatedBefore(ChatMessages(db.messages, chatId, now), cursor)
  }

  /** The same messages, newest first: what the page is cut from. */
  function PageCandidates(db: Db, chatId: nat, cursor: Time, now: Time): (r: seq<Message>)
    ensures NewestFirstOrder(r)
    ensures multiset(r) == multiset(Qualifying(db, chatId, cursor, now))
  {
    NewestFirst(Qualifying(db, chatId, cursor, now))
  }

  /** The page of a found chat: up to 21 messages before the cursor are
      fetched newest first, the first 20 are attributed and answered, and a
      21st only sets `hasNextPage`. Nothing when an author is unresolved. */
  function PageOf(db: Db, chat: Chat, cursor: Time, now: Time): Option<MessagePage> {
    var fetched := Take(PageCandidates(db, chat.id, cursor, now), DEFAULT_PAGE_SIZE + 1);
    match Attribute(ChatMembers(db, chat.id, now), Take(fetched, DEFAULT_PAGE_SIZE))
    case None => None
    case Some(page) => Some(MessagePage(|fetched| > DEFAULT_PAGE_SIZE, CleanChat(chat), page))
  }

  /** `getMessages`: find the chat, re-read it by id with its messages, and
      answer its page; an unresolved author or a vanished chat is an error. */
  function GetMessages(db: Db, caller: Caller, uuid: Uuid, fromDate: Option<Time>, now: Time): Response<MessagePage> {
    match AccessibleChat(db, caller, uuid, now)
    case None => NotFound
    case Some(found) =>
      match LiveChatById(db.chats, found.id, now)
      case None => Error
      case Some(chat) =>
        match PageOf(db, chat, Cursor(fromDate, now), now)
        case None => Error
        case Some(page) => Ok(page)
  }

  /** The first `n` candidates are the page's messages. */
  lemma PageIsCandidatePrefix(db: Db, chat: Chat, cursor: Time, now: Time)
    requires PageOf(db, chat, cursor, now).Some?
    ensures var page := PageOf(db, chat, cursor, now).value;
            var cands := PageCandidates(db, chat.id, cursor, now);
            && |page.messages| == (if |cands| < DEFAULT_PAGE_SIZE then |cands| else DEFAULT_PAGE_SIZE)
            && (page.hasNextPage <==> |cands| > DEFAULT_PAGE_SIZE)
            && page.chat == CleanChat(chat)
            && forall i :: 0 <= i < |page.messages| ==>
                 && page.messages[i].message == CleanMessage(cands[i])
                 && Some(page.messages[i].participantId) == AuthorId(ChatMembers(db, chat.id, now), cands[i])
  {
    var cands := PageCandidates(db, chat.id, cursor, now);
    var fetched := Take(cands, DEFAULT_PAGE_SIZE + 1);
    var shown := Take(fetched, DEFAULT_PAGE_SIZE);
    assert shown == cands[..|shown|];
  }

  /** A prefix of a newest-first arrangement of `qualifying` is newest
      first, drawn from `qualifying`, and no qualifying message left out is
      newer than one shown. */
  lemma PrefixIsNewest(qualifying: seq<Message>, cands: seq<Message>, page: seq<AttributedMessage>)
    requires NewestFirstOrder(cands) && multiset(cands) == multiset(qualifying)
    requires |page| <= |cands|
    requires forall i :: 0 <= i < |page| ==> page[i].message == CleanMessage(cands[i])
    ensures forall i :: 0 <= i < |page| ==>
              exists m :: m in qualifying && page[i].message == CleanMessage(m)
    ensures forall i, j :: 0 <= i < j < |page| ==> page[j].message.createdAt <= page[i].message.createdAt
    ensures forall m, i :: m in qualifying && 0 <= i < |page| ==>
              (exists k :: 0 <= k < |page| && page[k].message == CleanMessage(m)) ||
              m.createdAt <= page[i].message.createdAt
  {
    forall i | 0 <= i < |page| ensures exists m :: m in qualifying && page[i].message == CleanMessage(m) {
      var m := cands[i];
      assert m in multiset(cands);
      assert m in multiset(qualifying);
      assert m in qualifying && page[i].message == CleanMessage(m);
    }
    forall i, j | 0 <= i < j < |page| ensures page[j].message.createdAt <= page[i].message.createdAt {
      assert NewerOrSame(cands[i], cands[j]);
    }
    forall m, i | m in qualifying && 0 <= i < |page|
      ensures (exists k :: 0 <= k < |page| && page[k].message == CleanMessage(m)) ||
              m.createdAt <= page[i].message.createdAt
    {
      assert m in multiset(cands);
      var k :| 0 <= k < |cands| && cands[k] == m;
      if k >= |page| {
        assert NewerOrSame(cands[i], cands[k]);
      }
    }
  }

  /** A page holds at most 20 messages, each a live message of the chat
      before the cursor, newest first; every qualifying message not on the
      page is no newer than any message on it; `hasNextPage` says exactly
      whether more than 20 qualify. */
  lemma PageIsNewestBeforeCursor(db: Db, chat: Chat, cursor: Time, now: Time)
    requires PageOf(db, chat, cursor, now).Some?
    ensures var page := PageOf(db, chat, cursor, now).value;
            var qualifying := Qualifying(db, chat.id, cursor, now);
            && |page.messages| <= DEFAULT_PAGE_SIZE
            && (page.hasNextPage <==> |qualifying| > DEFAULT_PAGE_SIZE)
            && (forall i :: 0 <= i < |page.messages| ==>
                  exists m :: m in qualifying && page.messages[i].message == CleanMessage(m))
            && (forall i, j :: 0 <= i < j < |page.messages| ==>
                  page.messages[j].message.createdAt <= page.messages[i].message.createdAt)
            && (forall m, i :: m in qualifying && 0 <= i < |page.messages| ==>
                  (exists k :: 0 <= k < |page.messages| && page.messages[k].message == CleanMessage(m)) ||
                  m.createdAt <= page.messages[i].message.createdAt)
  {
    var page := PageOf(db, chat, cursor, now).value;
    var qualifying := Qualifying(db, chat.id, cursor, now);
    var cands := PageCandidates(db, chat.id, cursor, now);
    PageIsCandidatePrefix(db, chat, cursor, now);
    assert |cands| == |qualifying| by {
      assert |multiset(cands)| == |multiset(qualifying)|;
    }
    PrefixIsNewest(qualifying, cands, page.messages);
  }

  /** The messages a page is drawn from are exactly the chat's live
      messages created before the cursor. */
  lemma QualifyingExactly(db: Db, chatId: nat, cursor: Time, now: Time, m: Message)
    ensures m in Qualifying(db, chatId, cursor, now) <==>
            m in db.messages && m.chatId == chatId && Live(m.deletedAt, now) && m.createdAt < cursor
  {
  }

  /** Attributing the first 20 of a list of candidates fails exactly when
      one of them has an unresolved author. */
  lemma ShownFailsOnUnresolvedAuthor(members: seq<Participant>, cands: seq<Message>)
    ensures Attribute(members, Take(Take(cands, DEFAULT_PAGE_SIZE + 1), DEFAULT_PAGE_SIZE)).None? <==>
              exists i :: 0 <= i < |cands| && i < DEFAULT_PAGE_SIZE && AuthorId(members, cands[i]).None?
  {
    var shown := Take(Take(cands, DEFAULT_PAGE_SIZE + 1), DEFAULT_PAGE_SIZE);
    assert shown == cands[..|shown|];
    assert |shown| == if |cands| < DEFAULT_PAGE_SIZE then |cands| else DEFAULT_PAGE_SIZE;
    assert forall i :: 0 <= i < |shown| ==> shown[i] == cands[i];
  }

  /** A page fails exactly when one of the first 20 candidates has an author
      that is not a member. */
  lemma PageFailsOnUnresolvedAuthor(db: Db, chat: Chat, cursor: Time, now: Time)
    ensures var cands := PageCandidates(db, chat.id, cursor, now);
            PageOf(db, chat, cursor, now).None? <==>
              exists i :: 0 <= i < |cands| && i < DEFAULT_PAGE_SIZE &&
                AuthorId(ChatMembers(db, chat.id, now), cands[i]).None?
  {
    ShownFailsOnUnresolvedAuthor(ChatMembers(db, chat.id, now), PageCandidates(db, chat.id, cursor, now));
  }

  /** In a well-formed store `getMessages` is NotFound exactly when the
      chat is not addressable; otherwise it answers the addressed chat's
      page at the cursor (the given date, or one second past now), and
      fails exactly when one of the 20 messages it would show has an
      author that is no longer a live member. */
  lemma GetMessagesAnswersPage(db: Db, caller: Caller, uuid: Uuid, fromDate: Option<Time>, now: Time)
    requires WellFormed(db)
    ensures GetMessages(db, caller, uuid, fromDate, now).NotFound? <==> AccessibleChat(db, caller, uuid, now).None?
    ensures GetMessages(db, caller, uuid, fromDate, now) != NoResponse
    ensures AccessibleChat(db, caller, uuid, now).Some? ==>
              var chat := AccessibleChat(db, caller, uuid, now).value;
              var cands := PageCandidates(db, chat.id, Cursor(fromDate, now), now);
              && (GetMessages(db, caller, uuid, fromDate, now).Error? <==>
                    exists i :: 0 <= i < |cands| && i < DEFAULT_PAGE_SIZE &&
                      AuthorId(ChatMembers(db, chat.id, now), cands[i]).None?)
              && (GetMessages(db, caller, uuid, fromDate, now).Ok? ==>
                    GetMessages(db, caller, uuid, fromDate, now) == Ok(PageOf(db, chat, Cursor(fromDate, now), now).value))
  {
    match AccessibleChat(db, caller, uuid, now)
    case None =>
    case Some(found) =>
      StoredChat(db, found, now);
      var page := PageOf(db, found, Cursor(fromDate, now), now);
      assert GetMessages(db, caller, uuid, fromDate, now) == if page.None? then Error else Ok(page.value);
      PageFailsOnUnresolvedAuthor(db, found, Cursor(fromDate, now), now);
  }
}
