/** The Message model (src/models/Message.js): the row shape, its owning
    chat, the system-author sentinel, the clean projection and the
    newest-first order in which the controllers read a chat's messages. */
module MessageModel {
  import opened Common

  /** `participantId` of a message: an internal participant id, or the
      system sentinel '-1' for messages the service writes itself. */
  datatype Author = SystemAuthor | ParticipantAuthor(id: nat)

  /** How the system sentinel is spelled in responses and events. */
  const SYSTEM_PARTICIPANT_ID: string := "-1"
  const SYSTEM_PARTICIPANT_TYPE: string := "system"

  /** A Messages row; it belongs to exactly one chat through `chatId`
      (the `ChatId` foreign key). */
  datatype Message = Message(
    id: nat,
    uuid: Uuid,
    chatId: nat,
    accountId: AccountId,
    author: Author,
    text: string,
    createdAt: Time,
    updatedAt: Time,
    deletedAt: Option<Time>)

  /** `pick(message, Message.cleanAttributes)`. */
  datatype MessageView = MessageView(uuid: Uuid, text: string, createdAt: Time, updatedAt: Time)

  function CleanMessage(m: Message): MessageView {
    MessageView(m.uuid, m.text, m.createdAt, m.updatedAt)
  }

  predicate SameCleanAttributes(m: Message, n: Message) {
    m.uuid == n.uuid && m.text == n.text && m.createdAt == n.createdAt && m.updatedAt == n.updatedAt
  }

  /** The clean projection shows exactly the whitelist: never id, chatId,
      accountId or the author's internal id. */
  lemma CleanMessageIsWhitelist(m: Message, n: Message)
    ensures CleanMessage(m) == CleanMessage(n) <==> SameCleanAttributes(m, n)
  {
  }

  /** `Message.create(...)`: a live row stamped with the current time. */
  function NewMessage(id: nat, uuid: Uuid, chatId: nat, accountId: AccountId, author: Author,
                      text: string, now: Time): Message
  {
    Message(id, uuid, chatId, accountId, author, text, now, now, None)
  }

  /** The texts of the system messages written on join and on close. */
  function JoinedText(name: Option<string>): string {
    Display(name) + " has joined the room"
  }

  function EndedText(name: Option<string>): string {
    Display(name) + " ended the chat"
  }

  /** The clean MESSAGE_CREATED payload: the clean message extended with the
      author's public id and role and the chat's uuid. */
  datatype MessageCreatedView = MessageCreatedView(
    message: MessageView,
    participantId: string,
    participantType: string,
    chatUuid: Uuid)

  /** The payload for a message the service writes itself. */
  function SystemMessageCreated(m: Message, chatUuid: Uuid): MessageCreatedView {
    MessageCreatedView(CleanMessage(m), SYSTEM_PARTICIPANT_ID, SYSTEM_PARTICIPANT_TYPE, chatUuid)
  }

  /** A clean message with its author's public id (or the sentinel). */
  datatype AttributedMessage = AttributedMessage(message: MessageView, participantId: string)

  /** `order: [['createdAt', 'DESC']]`, ties broken by the newer id. */
  predicate NewerOrSame(a: Message, b: Message) {
    a.createdAt > b.createdAt || (a.createdAt == b.createdAt && a.id >= b.id)
  }

  predicate NewestFirstOrder(s: seq<Message>) {
    forall i, j :: 0 <= i < j < |s| ==> NewerOrSame(s[i], s[j])
  }

  function Insert(m: Message, s: seq<Message>): (r: seq<Message>)
    requires NewestFirstOrder(s)
    ensures NewestFirstOrder(r)
    ensures multiset(r) == multiset(s) + multiset{m}
  {
    if s == [] then [m]
    else if NewerOrSame(m, s[0]) then
      assert forall k :: 0 <= k < |s| ==> NewerOrSame(m, s[k]);
      [m] + s
    else
      var rest := Insert(m, s[1..]);
      InsertBehindHead(m, s, rest);
      [s[0]] + rest
  }

  /** The step of Insert that keeps the head: the head is newer than `m` and
      than the rest of `s`, so it stays in front. */
  lemma InsertBehindHead(m: Message, s: seq<Message>, rest: seq<Message>)
    requires s != [] && NewestFirstOrder(s) && !NewerOrSame(m, s[0])
    requires NewestFirstOrder(rest) && multiset(rest) == multiset(s[1..]) + multiset{m}
    ensures NewestFirstOrder([s[0]] + rest)
    ensures multiset([s[0]] + rest) == multiset(s) + multiset{m}
  {
    assert s == [s[0]] + s[1..];
    forall k | 0 <= k < |rest| ensures NewerOrSame(s[0], rest[k]) {
      assert rest[k] in multiset(rest);
      if rest[k] != m {
        assert rest[k] in multiset(s[1..]);
        var j :| 0 <= j < |s[1..]| && s[1..][j] == rest[k];
        assert s[j + 1] == rest[k];
      }
    }
    var r := [s[0]] + rest;
    forall i, j | 0 <= i < j < |r| ensures NewerOrSame(r[i], r[j]) {
      assert r[j] == rest[j - 1];
      if i > 0 {
        assert r[i] == rest[i - 1];
      }
    }
  }

  /** The messages in newest-first order (an insertion sort). */
  function NewestFirst(ms: seq<Message>): (r: seq<Message>)
    ensures NewestFirstOrder(r)
    ensures multiset(r) == multiset(ms)
  {
    if ms == [] then []
    else
      assert ms == [ms[0]] + ms[1..];
      Insert(ms[0], NewestFirst(ms[1..]))
  }

  /** The live messages of a chat, in table order (`chat.Messages`). */
  function ChatMessages(ms: seq<Message>, chatId: nat, now: Time): (r: seq<Message>)
    ensures forall m :: m in r <==> m in ms && m.chatId == chatId && Live(m.deletedAt, now)
    ensures forall m {:trigger multiset(r)[m]} :: multiset(r)[m] == if m.chatId == chatId && Live(m.deletedAt, now) then multiset(ms)[m] else 0
  {
    if ms == [] then []
    else
      var rest := ChatMessages(ms[1..], chatId, now);
      assert ms == [ms[0]] + ms[1..];
      if ms[0].chatId == chatId && Live(ms[0].deletedAt, now) then [ms[0]] + rest else rest
  }

  /** The messages created strictly before the cursor (`createdAt: { $lt }`). */
  function CreatedBefore(ms: seq<Message>, cursor: Time): (r: seq<Message>)
    ensures forall m :: m in r <==> m in ms && m.createdAt < cursor
    ensures forall m {:trigger multiset(r)[m]} :: multiset(r)[m] == if m.createdAt < cursor then multiset(ms)[m] else 0
  {
    if ms == [] then []
    else
      var rest := CreatedBefore(ms[1..], cursor);
      assert ms == [ms[0]] + ms[1..];
      if ms[0].createdAt < cursor then [ms[0]] + rest else rest
  }

  /** The first `n` elements, or all of them when there are fewer
      (`limit` and `slice(0, n)`). */
  function Take<T>(s: seq<T>, n: nat): (r: seq<T>)
    ensures |r| <= n && |r| <= |s| && (|r| == n || r == s)
    ensures r == s[..|r|]
  {
    if |s| <= n then s else s[..n]
  }

  /** The head of a newest-first order is at least as new as every message
      in it, so the first row of `limit: 1` is the chat's latest message. */
  lemma NewestFirstHead(ms: seq<Message>, m: Message)
    requires m in ms
    ensures NewestFirst(ms) != [] && NewerOrSame(NewestFirst(ms)[0], m)
  {
    var r := NewestFirst(ms);
    assert m in multiset(r);
    var k :| 0 <= k < |r| && r[k] == m;
    assert k == 0 || NewerOrSame(r[0], r[k]);
  }
}
