/** The Participant model (src/models/Participant.js) and its many-to-many
    link to chats (src/models/ChatParticipants.js): row shapes, the clean
    projection, and the membership queries the controllers run through
    `chat.getParticipants()` and `include: [Participant]`. */
module ParticipantModel {
  import opened Common

  /** `realType`: the role of the identity a participant stands for. */
  datatype RealType = UserType | ClientType

  /** The enum's database spelling. */
  function RealTypeName(t: RealType): string {
    match t
    case UserType => "user"
    case ClientType => "client"
  }

  /** A Participants row. `name` and `email` are cached copies of the
      identity's details and may be absent. */
  datatype Participant = Participant(
    id: nat,
    uuid: Uuid,
    accountId: AccountId,
    realUuid: Uuid,
    realId: ExternalId,
    realType: RealType,
    name: Option<string>,
    email: Option<string>,
    createdAt: Time,
    updatedAt: Time,
    deletedAt: Option<Time>)

  /** A ChatParticipants link row. */
  datatype Membership = Membership(
    id: nat,
    chatId: nat,
    participantId: nat,
    createdAt: Time,
    updatedAt: Time,
    deletedAt: Option<Time>)

  /** `pick(participant, Participant.cleanAttributes)`. */
  datatype ParticipantView = ParticipantView(
    uuid: Uuid,
    realType: RealType,
    realUuid: Uuid,
    name: Option<string>,
    email: Option<string>,
    createdAt: Time,
    updatedAt: Time)

  /** The projection the RPC responder uses: the clean attributes plus
      `realId` and `accountId`. */
  datatype RpcParticipantView = RpcParticipantView(
    view: ParticipantView,
    realId: ExternalId,
    accountId: AccountId)

  function CleanParticipant(p: Participant): ParticipantView {
    ParticipantView(p.uuid, p.realType, p.realUuid, p.name, p.email, p.createdAt, p.updatedAt)
  }

  function RpcParticipant(p: Participant): RpcParticipantView {
    RpcParticipantView(CleanParticipant(p), p.realId, p.accountId)
  }

  /** Two rows agree on every whitelisted attribute. */
  predicate SameCleanAttributes(p: Participant, q: Participant) {
    && p.uuid == q.uuid && p.realType == q.realType && p.realUuid == q.realUuid
    && p.name == q.name && p.email == q.email
    && p.createdAt == q.createdAt && p.updatedAt == q.updatedAt
  }

  /** The clean projection shows exactly the whitelist: two rows have the
      same clean view iff they agree on it, whatever their id, realId,
      accountId or deletedAt. */
  lemma CleanParticipantIsWhitelist(p: Participant, q: Participant)
    ensures CleanParticipant(p) == CleanParticipant(q) <==> SameCleanAttributes(p, q)
  {
  }

  /** A freshly inserted, live participant row. */
  function NewParticipant(id: nat, uuid: Uuid, accountId: AccountId, realUuid: Uuid,
                          realId: ExternalId, realType: RealType,
                          name: Option<string>, email: Option<string>, now: Time): Participant
  {
    Participant(id, uuid, accountId, realUuid, realId, realType, name, email, now, now, None)
  }

  /** A freshly inserted, live link row. */
  function NewMembership(id: nat, chatId: nat, participantId: nat, now: Time): Membership {
    Membership(id, chatId, participantId, now, now, None)
  }

  /** The participant row with the given primary key. */
  function ParticipantById(ps: seq<Participant>, id: nat): (r: Option<Participant>)
    ensures r.Some? ==> r.value in ps && r.value.id == id
    ensures r.None? <==> forall j :: 0 <= j < |ps| ==> ps[j].id != id
  {
    match FirstIndex(ps, (p: Participant) => p.id == id)
    case None => None
    case Some(i) => Some(ps[i])
  }

  /** Link row `m` makes live participant `p` a member of chat `chatId`. */
  predicate MemberVia(ps: seq<Participant>, m: Membership, chatId: nat, now: Time, p: Participant) {
    && m.chatId == chatId
    && Live(m.deletedAt, now)
    && ParticipantById(ps, m.participantId) == Some(p)
    && Live(p.deletedAt, now)
  }

  /** The participants of a chat, in link-row order: a live link row to a
      live participant (the join behind `chat.getParticipants()`). */
  function Members(ps: seq<Participant>, ms: seq<Membership>, chatId: nat, now: Time): (r: seq<Participant>)
    ensures |r| <= |ms|
    ensures forall i :: 0 <= i < |r| ==> Live(r[i].deletedAt, now)
  {
    if ms == [] then []
    else
      var rest := Members(ps, ms[1..], chatId, now);
      var m := ms[0];
      if m.chatId == chatId && Live(m.deletedAt, now) then
        match ParticipantById(ps, m.participantId)
        case Some(p) => if Live(p.deletedAt, now) then [p] + rest else rest
        case None => rest
      else rest
  }

  /** Membership is exactly "some live link row leads to it". */
  lemma {:induction false} MembersExactly(ps: seq<Participant>, ms: seq<Membership>, chatId: nat,
                                          now: Time, p: Participant)
    ensures p in Members(ps, ms, chatId, now) <==>
            exists i :: 0 <= i < |ms| && MemberVia(ps, ms[i], chatId, now, p)
  {
    if ms != [] {
      MembersExactly(ps, ms[1..], chatId, now, p);
      if exists i :: 0 <= i < |ms| && MemberVia(ps, ms[i], chatId, now, p) {
        var i :| 0 <= i < |ms| && MemberVia(ps, ms[i], chatId, now, p);
        if i > 0 {
          assert ms[i] == ms[1..][i - 1];
        }
      }
      if p in Members(ps, ms[1..], chatId, now) {
        var i :| 0 <= i < |ms[1..]| && MemberVia(ps, ms[1..][i], chatId, now, p);
        assert ms[i + 1] == ms[1..][i];
      }
    }
  }

  /** Appending a link row appends at most its own participant to every
      chat's member list: the list of link rows is read in order. */
  lemma {:induction false} MembersAppend(ps: seq<Participant>, ms: seq<Membership>, m: Membership,
                                         chatId: nat, now: Time)
    ensures Members(ps, ms + [m], chatId, now) == Members(ps, ms, chatId, now) + Members(ps, [m], chatId, now)
  {
    if ms == [] {
      assert ms + [m] == [m];
    } else {
      assert (ms + [m])[1..] == ms[1..] + [m];
      MembersAppend(ps, ms[1..], m, chatId, now);
    }
  }

  /** Appending a participant row does not change what a lookup by an id
      already present finds. */
  lemma ParticipantByIdAppend(ps: seq<Participant>, q: Participant, id: nat)
    requires ParticipantById(ps, id).Some?
    ensures ParticipantById(ps + [q], id) == ParticipantById(ps, id)
  {
    FirstIndexAppend(ps, q, (p: Participant) => p.id == id);
  }

  /** Appending a participant row leaves every chat's members alone while
      every link row names a participant already present. */
  lemma {:induction false} MembersAfterNewParticipant(ps: seq<Participant>, ms: seq<Membership>, q: Participant,
                                                      chatId: nat, now: Time)
    requires forall k :: 0 <= k < |ms| ==> ParticipantById(ps, ms[k].participantId).Some?
    ensures Members(ps + [q], ms, chatId, now) == Members(ps, ms, chatId, now)
  {
    if ms != [] {
      ParticipantByIdAppend(ps, q, ms[0].participantId);
      assert forall k :: 0 <= k < |ms[1..]| ==> ms[1..][k] == ms[k + 1];
      MembersAfterNewParticipant(ps, ms[1..], q, chatId, now);
    }
  }

  /** A chat no link row points at has no members. */
  lemma {:induction false} MembersOfUnlinkedChat(ps: seq<Participant>, ms: seq<Membership>, chatId: nat, now: Time)
    requires forall k :: 0 <= k < |ms| ==> ms[k].chatId != chatId
    ensures Members(ps, ms, chatId, now) == []
  {
    if ms != [] {
      assert forall k :: 0 <= k < |ms[1..]| ==> ms[1..][k] == ms[k + 1];
      MembersOfUnlinkedChat(ps, ms[1..], chatId, now);
    }
  }

  /** The live participant with the given identity in the given tenant: the
      `where` of `Participant.findOrCreate` and `Participant.findOne`. */
  predicate HasIdentity(p: Participant, realId: ExternalId, realType: RealType,
                        accountId: AccountId, now: Time)
  {
    p.realId == realId && p.realType == realType && p.accountId == accountId && Live(p.deletedAt, now)
  }

  function FindLiveParticipant(ps: seq<Participant>, realId: ExternalId, realType: RealType,
                               accountId: AccountId, now: Time): (r: Option<nat>)
    ensures r.Some? ==> r.value < |ps| && HasIdentity(ps[r.value], realId, realType, accountId, now)
    ensures r.Some? ==> forall j :: 0 <= j < r.value ==> !HasIdentity(ps[j], realId, realType, accountId, now)
    ensures r.None? <==> forall j :: 0 <= j < |ps| ==> !HasIdentity(ps[j], realId, realType, accountId, now)
  {
    FirstIndex(ps, (p: Participant) => HasIdentity(p, realId, realType, accountId, now))
  }

  /** The rows an identity-update broadcast rewrites: live participants of
      the given role whose realId equals the broadcast's id, in any tenant.
      An absent id matches no row. */
  predicate UpdateTarget(p: Participant, realType: RealType, realId: Option<ExternalId>, now: Time) {
    realId.Some? && p.realId == realId.value && p.realType == realType && Live(p.deletedAt, now)
  }

  /** Every column except the cached name/email and updatedAt is equal. */
  predicate SameIdentity(p: Participant, q: Participant) {
    && p.id == q.id && p.uuid == q.uuid && p.accountId == q.accountId
    && p.realUuid == q.realUuid && p.realId == q.realId && p.realType == q.realType
    && p.createdAt == q.createdAt && p.deletedAt == q.deletedAt
  }

  /** `Participant.update({ name, email }, { where: { realType, realId } })`. */
  function WithIdentity(ps: seq<Participant>, realType: RealType, realId: Option<ExternalId>,
                        name: Option<string>, email: Option<string>, now: Time): (r: seq<Participant>)
    ensures |r| == |ps|
    ensures forall i :: 0 <= i < |ps| && !UpdateTarget(ps[i], realType, realId, now) ==> r[i] == ps[i]
    ensures forall i :: 0 <= i < |ps| && UpdateTarget(ps[i], realType, realId, now) ==>
              && SameIdentity(r[i], ps[i])
              && r[i].name == name && r[i].email == email && r[i].updatedAt == now
  {
    seq(|ps|, i requires 0 <= i < |ps| =>
      if UpdateTarget(ps[i], realType, realId, now)
      then ps[i].(name := name, email := email, updatedAt := now)
      else ps[i])
  }

  /** What `Participant.findOrCreate` leaves behind: the table, the row it
      answers with, and whether it inserted that row. */
  datatype FoundOrCreated = FoundOrCreated(rows: seq<Participant>, participant: Participant, created: bool)

  /** `Participant.findOrCreate` for a client identity: the first live row
      with the identity in the tenant, or a new row with the next id, the
      fresh uuid and the caller's own uuid as realUuid. */
  function FindOrCreateClient(ps: seq<Participant>, clientId: ExternalId, accountId: AccountId,
                              realUuid: Uuid, newUuid: Uuid, now: Time): (r: FoundOrCreated)
    ensures HasIdentity(r.participant, clientId, ClientType, accountId, now)
    ensures r.created <==> forall j :: 0 <= j < |ps| ==> !HasIdentity(ps[j], clientId, ClientType, accountId, now)
    ensures !r.created ==> r.rows == ps && r.participant in ps
    ensures r.created ==> r.rows == ps + [r.participant] && r.participant.id == |ps| + 1 &&
                          r.participant.uuid == newUuid && r.participant.realUuid == realUuid &&
                          r.participant.name.None? && r.participant.email.None?
  {
    match FindLiveParticipant(ps, clientId, ClientType, accountId, now)
    case Some(i) => FoundOrCreated(ps, ps[i], false)
    case None =>
      var p := NewParticipant(|ps| + 1, newUuid, accountId, realUuid, clientId, ClientType, None, None, now);
      FoundOrCreated(ps + [p], p, true)
  }

  /** Running `findOrCreate` again on its own result finds the same row and
      inserts nothing: one client has one live participant row per tenant
      as long as this is the only way such rows are made. */
  lemma FindOrCreateIsIdempotent(ps: seq<Participant>, clientId: ExternalId, accountId: AccountId,
                                 realUuid: Uuid, newUuid: Uuid, otherUuid: Uuid, now: Time)
    ensures var first := FindOrCreateClient(ps, clientId, accountId, realUuid, newUuid, now);
            FindOrCreateClient(first.rows, clientId, accountId, realUuid, otherUuid, now) ==
              FoundOrCreated(first.rows, first.participant, false)
  {
    var first := FindOrCreateClient(ps, clientId, accountId, realUuid, newUuid, now);
    if first.created {
      assert first.rows[|ps|] == first.participant;
      assert FindLiveParticipant(first.rows, clientId, ClientType, accountId, now) == Some(|ps|);
    }
  }
}
