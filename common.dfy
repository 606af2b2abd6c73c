/** Shared vocabulary of the chat service model: optional values, identifier
    types, soft-delete liveness, the authenticated caller and handler results. */
module Common {

  datatype Option<+T> = None | Some(value: T)

  /** Public identifiers (Sequelize UUIDV4 columns). */
  type Uuid = string
  /** Tenant identifier carried by every row and by the caller's token. */
  type AccountId = string
  /** Identifier of a client or user in the service that owns it (`realId`). */
  type ExternalId = string
  /** Abstract timestamps; the clock is a parameter of every handler. */
  type Time = int

  /** A soft-deleted row is live iff it has no deletion time or that time is
      still in the future (the paranoid clause
      `deletedAt > CURRENT_TIMESTAMP OR deletedAt IS NULL`). */
  predicate Live(deletedAt: Option<Time>, now: Time) {
    deletedAt.None? || deletedAt.value > now
  }

  /** The index of the first element of `s` satisfying `p`: how every
      "find one row" query of the model picks among rows in table order. */
  function FirstIndex<T>(s: seq<T>, p: T -> bool): (r: Option<nat>)
    ensures r.Some? ==> r.value < |s| && p(s[r.value])
    ensures r.Some? ==> forall j :: 0 <= j < r.value ==> !p(s[j])
    ensures r.None? <==> forall j :: 0 <= j < |s| ==> !p(s[j])
  {
    if s == [] then None
    else if p(s[0]) then Some(0)
    else match FirstIndex(s[1..], p)
      case None => None
      case Some(k) => Some(k + 1)
  }

  /** A row found in `s` is still the first one found once a row is
      appended. */
  lemma FirstIndexAppend<T>(s: seq<T>, x: T, p: T -> bool)
    requires FirstIndex(s, p).Some?
    ensures FirstIndex(s + [x], p) == FirstIndex(s, p)
  {
    var i := FirstIndex(s, p).value;
    assert (s + [x])[i] == s[i];
    forall j | 0 <= j < i ensures !p((s + [x])[j]) {
      assert (s + [x])[j] == s[j];
    }
  }

  /** The identity decoded from the request's token (`req.user`): a client
      (end customer), a user (support agent), or neither. */
  datatype Caller =
    | Client(clientId: ExternalId, accountId: AccountId, uuid: Uuid)
    | User(userId: ExternalId, accountId: AccountId, name: Option<string>,
           email: Option<string>, uuid: Uuid)
    | NoIdentity

  /** The caller's tenant, absent when the token names none. */
  function AccountOf(caller: Caller): (r: Option<AccountId>)
    ensures r.None? <==> caller.NoIdentity?
  {
    match caller
    case Client(_, a, _) => Some(a)
    case User(_, a, _, _, _) => Some(a)
    case NoIdentity => None
  }

  /** What a handler sends back: `ok(res)(body)`, `notFound(res)()`,
      `error(res)(err)`, or nothing at all. */
  datatype Response<+T> = Ok(body: T) | NotFound | Error | NoResponse

  /** JavaScript's rendering of an optional string inside a template
      literal: an absent value prints as "undefined". */
  function Display(s: Option<string>): string {
    match s
    case Some(v) => v
    case None => "undefined"
  }
}
