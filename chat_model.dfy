/** The Chat model (src/models/Chat.js): the row shape, the default status,
    the clean projection, the bulk status update and the raw
    `findWhereParticipant` visibility query. */
module ChatModel {
  import opened Common
  import opened ParticipantModel

  /** The `enum_Chats_status` values. */
  datatype Status = Open | Active | Closed

  /** The column default a newly inserted chat receives. */
  const DEFAULT_STATUS: Status := Open

  /** A Chats row. `participantId` is the uuid of the creating participant. */
  datatype Chat = Chat(
    id: nat,
    uuid: Uuid,
    accountId: AccountId,
    participantId: Uuid,
    status: Status,
    createdAt: Time,
    updatedAt: Time,
    deletedAt: Option<Time>)

  /** `pick(chat, Chat.cleanAttributes)`. */
  datatype ChatView = ChatView(
    uuid: Uuid,
    accountId: AccountId,
    participantId: Uuid,
    status: Status,
    createdAt: Time,
    updatedAt: Time)

  /** A chat as the handlers answer it: the clean chat with the clean
      projection of its participants (`cleanRoom`). */
  datatype ChatRoom = ChatRoom(chat: ChatView, participants: seq<ParticipantView>)

  function CleanChat(c: Chat): ChatView {
    ChatView(c.uuid, c.accountId, c.participantId, c.status, c.createdAt, c.updatedAt)
  }

  predicate SameCleanAttributes(c: Chat, d: Chat) {
    && c.uuid == d.uuid && c.accountId == d.accountId && c.participantId == d.participantId
    && c.status == d.status && c.createdAt == d.createdAt && c.updatedAt == d.updatedAt
  }

  /** The clean projection shows exactly the whitelist: never id or
      deletedAt. */
  lemma CleanChatIsWhitelist(c: Chat, d: Chat)
    ensures CleanChat(c) == CleanChat(d) <==> SameCleanAttributes(c, d)
  {
  }

  /** `Chat.create({ participantId, accountId })`: a live row whose status is
      the column default. */
  function NewChat(id: nat, uuid: Uuid, accountId: AccountId, participantId: Uuid, now: Time): Chat {
    Chat(id, uuid, accountId, participantId, DEFAULT_STATUS, now, now, None)
  }

  /** The live chat a tenant addresses by uuid. */
  predicate ChatIs(c: Chat, uuid: Uuid, accountId: AccountId, now: Time) {
    c.uuid == uuid && c.accountId == accountId && Live(c.deletedAt, now)
  }

  /** `Chat.findOne({ where: { uuid, accountId } })` and the first row of
      `Chat.findAll` with the same `where`. */
  function FirstLiveChat(cs: seq<Chat>, uuid: Uuid, accountId: AccountId, now: Time): (r: Option<nat>)
    ensures r.Some? ==> r.value < |cs| && ChatIs(cs[r.value], uuid, accountId, now)
    ensures r.Some? ==> forall j :: 0 <= j < r.value ==> !ChatIs(cs[j], uuid, accountId, now)
    ensures r.None? <==> forall j :: 0 <= j < |cs| ==> !ChatIs(cs[j], uuid, accountId, now)
  {
    FirstIndex(cs, (c: Chat) => ChatIs(c, uuid, accountId, now))
  }

  /** The live chat row with the given primary key. */
  function LiveChatById(cs: seq<Chat>, id: nat, now: Time): (r: Option<Chat>)
    ensures r.Some? ==> r.value in cs && r.value.id == id && Live(r.value.deletedAt, now)
    ensures r.Some? ==> exists i :: 0 <= i < |cs| && cs[i] == r.value &&
                          forall j :: 0 <= j < i ==> !(cs[j].id == id && Live(cs[j].deletedAt, now))
    ensures r.None? <==> forall j :: 0 <= j < |cs| ==> !(cs[j].id == id && Live(cs[j].deletedAt, now))
  {
    match FirstIndex(cs, (c: Chat) => c.id == id && Live(c.deletedAt, now))
    case None => None
    case Some(i) => Some(cs[i])
  }

  /** Every column except status and updatedAt is equal. */
  predicate SameChatIdentity(c: Chat, d: Chat) {
    && c.id == d.id && c.uuid == d.uuid && c.accountId == d.accountId
    && c.participantId == d.participantId && c.createdAt == d.createdAt && c.deletedAt == d.deletedAt
  }

  /** `Chat.update({ status }, { where: { accountId, uuid } })`: every live
      matching row takes the status, whatever it was before. */
  function WithStatus(cs: seq<Chat>, uuid: Uuid, accountId: AccountId, status: Status, now: Time): (r: seq<Chat>)
    ensures |r| == |cs|
    ensures forall i :: 0 <= i < |cs| && !ChatIs(cs[i], uuid, accountId, now) ==> r[i] == cs[i]
    ensures forall i :: 0 <= i < |cs| && ChatIs(cs[i], uuid, accountId, now) ==>
              SameChatIdentity(r[i], cs[i]) && r[i].status == status && r[i].updatedAt == now
  {
    seq(|cs|, i requires 0 <= i < |cs| =>
      if ChatIs(cs[i], uuid, accountId, now) then cs[i].(status := status, updatedAt := now) else cs[i])
  }

  /** The bulk update leaves the first matching row at the same index with
      the requested status, so the row the handler answers with is that one. */
  lemma WithStatusKeepsFirst(cs: seq<Chat>, uuid: Uuid, accountId: AccountId, status: Status, now: Time, i: nat)
    requires FirstLiveChat(cs, uuid, accountId, now) == Some(i)
    ensures FirstLiveChat(WithStatus(cs, uuid, accountId, status, now), uuid, accountId, now) == Some(i)
    ensures WithStatus(cs, uuid, accountId, status, now)[i].status == status
  {
    var r := WithStatus(cs, uuid, accountId, status, now);
    assert ChatIs(r[i], uuid, accountId, now);
    forall j | 0 <= j < i ensures !ChatIs(r[j], uuid, accountId, now) {
      assert r[j] == cs[j];
    }
  }

  /** The identity condition of `findWhereParticipant`: realId equals the
      client id with realType 'client', or the user id with realType
      'user'. An absent id is SQL NULL and equals nothing. */
  predicate IdentityMatches(p: Participant, clientId: Option<ExternalId>, userId: Option<ExternalId>) {
    || (clientId.Some? && p.realId == clientId.value && p.realType == ClientType)
    || (userId.Some? && p.realId == userId.value && p.realType == UserType)
  }

  /** One row of the raw query: the chat's columns joined with one
      participant's columns. */
  datatype ParticipantRow = ParticipantRow(chat: Chat, participant: Participant)

  function MatchingRows(c: Chat, members: seq<Participant>, clientId: Option<ExternalId>,
                        userId: Option<ExternalId>): (r: seq<ParticipantRow>)
    ensures |r| <= |members|
    ensures forall k :: 0 <= k < |r| ==> r[k].chat == c
    ensures forall k :: 0 <= k < |r| ==> r[k].participant in members
    ensures forall k :: 0 <= k < |r| ==> IdentityMatches(r[k].participant, clientId, userId)
  {
    if members == [] then []
    else
      var rest := MatchingRows(c, members[1..], clientId, userId);
      if IdentityMatches(members[0], clientId, userId)
      then [ParticipantRow(c, members[0])] + rest
      else rest
  }

  lemma {:induction false} MatchingRowsNonEmpty(c: Chat, members: seq<Participant>,
                                                clientId: Option<ExternalId>, userId: Option<ExternalId>)
    ensures MatchingRows(c, members, clientId, userId) != [] <==>
            exists p :: p in members && IdentityMatches(p, clientId, userId)
  {
    if members != [] {
      MatchingRowsNonEmpty(c, members[1..], clientId, userId);
      if exists p :: p in members && IdentityMatches(p, clientId, userId) {
        var p :| p in members && IdentityMatches(p, clientId, userId);
        if p != members[0] {
          assert p in members[1..];
        }
      }
    }
  }

  /** `Chat.findWhereParticipant`: at most one live chat with exactly this
      uuid and tenant is considered (`LIMIT 1`), joined with its live link
      rows to live participants that match the identity. Only the chat's
      accountId is compared, never the participant's. */
  function FindWhereParticipant(cs: seq<Chat>, ps: seq<Participant>, ms: seq<Membership>,
                                clientId: Option<ExternalId>, userId: Option<ExternalId>,
                                uuid: Uuid, accountId: AccountId, now: Time): (r: seq<ParticipantRow>)
    ensures forall k :: 0 <= k < |r| ==> ChatIs(r[k].chat, uuid, accountId, now)
    ensures forall k :: 0 <= k < |r| ==> IdentityMatches(r[k].participant, clientId, userId)
    ensures FirstLiveChat(cs, uuid, accountId, now).None? ==> r == []
    ensures FirstLiveChat(cs, uuid, accountId, now).Some? ==>
              forall k :: 0 <= k < |r| ==> r[k].chat == cs[FirstLiveChat(cs, uuid, accountId, now).value]
    ensures forall k :: 0 <= k < |r| ==> r[k].participant in Members(ps, ms, r[k].chat.id, now)
    ensures clientId.None? && userId.None? ==> r == []
  {
    match FirstLiveChat(cs, uuid, accountId, now)
    case None => []
    case Some(i) =>
      var r := MatchingRows(cs[i], Members(ps, ms, cs[i].id, now), clientId, userId);
      assert r != [] ==> IdentityMatches(r[0].participant, clientId, userId);
      r
  }

  /** The query finds something iff the one considered chat has a live link
      row to a live participant with the identity. */
  lemma FindWhereParticipantNonEmpty(cs: seq<Chat>, ps: seq<Participant>, ms: seq<Membership>,
                                     clientId: Option<ExternalId>, userId: Option<ExternalId>,
                                     uuid: Uuid, accountId: AccountId, now: Time)
    ensures FindWhereParticipant(cs, ps, ms, clientId, userId, uuid, accountId, now) != [] <==>
              exists i, k :: FirstLiveChat(cs, uuid, accountId, now) == Some(i) && 0 <= k < |ms| &&
                exists p :: MemberVia(ps, ms[k], cs[i].id, now, p) && IdentityMatches(p, clientId, userId)
  {
    match FirstLiveChat(cs, uuid, accountId, now)
    case None =>
    case Some(i) =>
      var members := Members(ps, ms, cs[i].id, now);
      MatchingRowsNonEmpty(cs[i], members, clientId, userId);
      forall p ensures p in members <==> exists k :: 0 <= k < |ms| && MemberVia(ps, ms[k], cs[i].id, now, p) {
        MembersExactly(ps, ms, cs[i].id, now, p);
      }
  }
}
