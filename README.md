# Chat service core in Dafny

A model of the chat-session core of the clairvoyance chat service: the
three v1.0 controllers (`chat.js`, `messages.js`, `participants.js`) and the
Chat, Participant and Message models they use.

The service keeps four soft-deleted tables: chats, participants, the
ChatParticipants link rows (memberships) and messages. Every state change
is announced on an event bus with a raw (full row) and a clean
(whitelisted, uuid-keyed) view. In the model:

- rows are datatypes, each with `deletedAt: Option<Time>`; a row is live
  while it has no deletion time or that time is still in the future, and
  every read sees live rows only;
- ids are autoincrement: the row at position `k` has id `k + 1`
  (`Database.WellFormed`, kept by every handler). This is an
  idealisation: a real sequence can skip values (a rolled-back insert),
  and the database promises only unique ids. The lemmas that assume
  `WellFormed` are stated for the gap-free table;
- the clock and the fresh uuids are parameters of each handler;
- the caller decoded from the token is a `Caller`: a client, a user, or
  neither;
- handlers answer `Ok(body)`, `NotFound`, `Error`, or nothing
  (`NoResponse`);
- "the first row" of a query without a deterministic order is the first
  in table order.

Module layout:

| file | module | contents |
|---|---|---|
| common.dfy | Common | Option, identifiers, liveness, `FirstIndex`, `Caller`, `Response` |
| participant_model.dfy | ParticipantModel | Participant and link rows, clean projection, `Members`, `findOrCreate`, the bulk name/email update |
| chat_model.dfy | ChatModel | Chat row, status enum and default, clean projection, bulk status update, `findWhereParticipant` |
| message_model.dfy | MessageModel | Message row, system author sentinel, clean projection, newest-first order |
| database.dfy | Database | the four tables, the well-formedness invariant and its preservation |
| events.dfy | Events | event names and raw/clean payloads |
| chat_queries.dfy | ChatQueries | `getChats`, `getChat`, `getChatPromise` |
| message_queries.dfy | MessageQueries | caller-to-chat resolution of the message endpoints, `getMessages` |
| participant_queries.dfy | ParticipantQueries | `getParticipants` |
| store.dfy | ChatService | class `Store`: the tables and event log as fields; `createChat`, `updateChat`, `join`, `createMessage`, `composeMessage`, `updateParticipantPromise` as methods |

The read handlers are functions of the tables. The handlers that write
rows and publish events are methods of `Store`. Each states its whole new
state and the exact events it appends, in order.

In these points the code does not do what a chat-session service would be
expected to do (one participant per person and chat, a status that only
moves forward, failures limited to the offending row), and the model
follows the code:

- `join` never looks for an existing participant. Every join inserts a new
  user participant and a new link row, even for a current member.
- `updateChat` writes whatever status it is given. A closed chat can be
  reopened. A user can join a closed chat, and the chat stays closed.
- In `getMessages`, a non-system author who is not a member of the chat
  makes the whole request fail (`Error`). Attribution is not left out.
- `updateParticipantPromise` matches rows on `raw.clientId` for every
  event, also when it rewrites user participants.

## Model

| member | source | states |
|---|---|---|
| ParticipantModel.CleanParticipantIsWhitelist | src/models/Participant.js:64-73 | two participant rows have the same clean view iff they agree on uuid, realType, realUuid, name, email, createdAt and updatedAt; id, realId, accountId and deletedAt never show |
| ParticipantModel.MembersExactly | src/models/Participant.js:75-82 | a participant is a member of a chat iff some live link row of that chat leads, by primary key, to it as a live row |
| ParticipantModel.MembersAppend | src/models/Participant.js:75-82 | a chat's member list follows link-row order: appending a link row appends at most its own participant |
| ParticipantModel.MembersAfterNewParticipant | src/models/Participant.js:75-82 | inserting a participant row changes no chat's members while every link row names an existing participant |
| ParticipantModel.MembersOfUnlinkedChat | src/models/Participant.js:75-82 | a chat with no link rows has no members |
| ParticipantModel.FindLiveParticipant | src/v1_0/controllers/chat.js:24-29 | finds a live participant with the given realId, realType and tenant that no earlier row matches, and finds none iff there is no such row |
| ParticipantModel.FindOrCreateClient | src/v1_0/controllers/chat.js:24-36 | the answered row has the client identity in the tenant; a row is created iff no live row has it; when found, the table is unchanged; when created, exactly that row is appended, with the next id, the fresh uuid, the caller's uuid as realUuid and no name or email |
| ParticipantModel.FindOrCreateIsIdempotent | src/v1_0/controllers/chat.js:24-36 | running find-or-create again on its own result finds the same row and inserts nothing |
| ParticipantModel.WithIdentity | src/v1_0/controllers/participants.js:184-193 | the rows of the role whose realId is the given id get the new name and email and updatedAt, in every tenant; no other column changes and no other row changes |
| ChatModel.CleanChatIsWhitelist | src/models/Chat.js:49 | two chat rows have the same clean view iff they agree on uuid, accountId, participantId, status, createdAt and updatedAt; id and deletedAt never show |
| ChatModel.FirstLiveChat | src/v1_0/controllers/participants.js:33-42 | the first live chat with the uuid and tenant, and none iff no chat matches |
| ChatModel.LiveChatById | src/v1_0/controllers/chat.js:180-183 | a live chat with the primary key that no earlier live row has, and none iff no live chat has it |
| ChatModel.WithStatus | src/v1_0/controllers/chat.js:248-256 | every live chat with the uuid and tenant takes the requested status and updatedAt, whatever it had; every other row and every other column is unchanged |
| ChatModel.WithStatusKeepsFirst | src/v1_0/controllers/chat.js:256-262 | after the bulk update the first matching row is still the first match and carries the requested status |
| ChatModel.FindWhereParticipant | src/models/Chat.js:57-101 | every row is the tenant's first live chat with the uuid, joined with a participant that is a live member of that chat through a live link row; no such chat, or neither id given, yields no rows |
| ChatModel.FindWhereParticipantNonEmpty | src/models/Chat.js:84-107 | rows exist iff the first live chat with the uuid and tenant has a live link row to a live participant matching the client or user identity; the participant's tenant is not compared |
| MessageModel.CleanMessageIsWhitelist | src/models/Message.js:53-58 | two messages have the same clean view iff they agree on uuid, text, createdAt and updatedAt; id, chat, tenant and author never show |
| MessageModel.ChatMessages | src/models/Message.js:48-51 | a message is in a chat's list iff it is a live message whose chat id is the chat's, and then as many times as in the table |
| MessageModel.NewestFirst | src/v1_0/controllers/messages.js:74-76 | the messages sorted by createdAt descending, ties by the newer id, as a permutation of the input |
| MessageModel.NewestFirstHead | src/v1_0/controllers/chat.js:85-95 | the head of the newest-first order is at least as new as every message in the input |
| MessageModel.CreatedBefore | src/v1_0/controllers/messages.js:69-73 | a message is kept iff it was created strictly before the cursor, and then as many times as in the input |
| MessageModel.Take | src/v1_0/controllers/messages.js:86 | a prefix of the input of the requested length, or all of it when it is shorter |
| Database.ClientChatInWellFormed | src/v1_0/controllers/chat.js:174-190 | the chat `findWhereParticipant` returns is the tenant's first live chat with the uuid, and re-reading it by id finds it |
| ChatQueries.AccountChats | src/v1_0/controllers/chat.js:76-79 | exactly the live chats of the tenant, each as many times as in the table |
| ChatQueries.LatestAuthorId | src/v1_0/controllers/chat.js:104-111 | the uuid of the first member whose id is the message's author, else '-1' |
| ChatQueries.GetChats | src/v1_0/controllers/chat.js:116-119 | the answer is Ok and its count is the length of its list |
| ChatQueries.GetChatsIsTenantScoped | src/v1_0/controllers/chat.js:70-131 | the list holds a summary of every live chat of the caller's tenant and nothing else; a caller without a tenant gets an empty list |
| ChatQueries.LatestMessageIsNewest | src/v1_0/controllers/chat.js:85-112 | the latest message is a live message of the chat at least as new as all others, attributed to its author's uuid or '-1'; there is none iff the chat has no live message |
| ChatQueries.GetChatVisibility | src/v1_0/controllers/chat.js:133-196 | a user gets the first live chat of the tenant with the uuid, or Error when there is none; a client gets that chat iff `findWhereParticipant` finds it, else NotFound; a caller with neither id gets no answer |
| ChatQueries.RpcParticipants | src/v1_0/controllers/chat.js:209-211 | one entry per member, in order: its clean view plus realId and accountId |
| ChatQueries.GetChatPromise | src/v1_0/controllers/chat.js:199-231 | an absent uuid gives the 'Invalid user id' error; no matching chat gives undefined; otherwise the clean chat with the uuid and tenant and its members' extended views, member by member |
| MessageQueries.ParticipantChats | src/v1_0/controllers/messages.js:36-52 | only live chats with the uuid and tenant; some chat iff a live link row of the participant leads to one |
| MessageQueries.AccessibleChat | src/v1_0/controllers/messages.js:26-55 | a found chat is a stored live chat with the uuid in the caller's tenant; a caller without identity finds none |
| MessageQueries.AccessibleChatExactly | src/v1_0/controllers/messages.js:26-60 | a user reaches a chat iff the tenant has a live chat with the uuid; a client iff its own live participant row in the tenant has a live link row to such a chat |
| MessageQueries.AuthorId | src/v1_0/controllers/messages.js:89-95 | '-1' for a system message; otherwise the uuid of the first member with the author's id, and nothing when no member has it |
| MessageQueries.Attribute | src/v1_0/controllers/messages.js:86-98 | fails iff some message's author cannot be resolved; otherwise attributes each message, in order, with its clean view and author id |
| MessageQueries.PageCandidates | src/v1_0/controllers/messages.js:62-76 | the chat's live messages before the cursor, newest first, as a permutation of those that qualify |
| MessageQueries.QualifyingExactly | src/v1_0/controllers/messages.js:66-73 | a message qualifies iff it is a live message of the chat created strictly before the cursor |
| MessageQueries.PageIsCandidatePrefix | src/v1_0/controllers/messages.js:81-98 | the page is the clean, attributed view of the first (at most 20) candidates, and hasNextPage iff there are more than 20 |
| MessageQueries.PageIsNewestBeforeCursor | src/v1_0/controllers/messages.js:62-98 | at most 20 messages, all qualifying, in non-increasing createdAt order; hasNextPage iff more than 20 qualify; no omitted qualifying message is newer than a shown one |
| MessageQueries.PageFailsOnUnresolvedAuthor | src/v1_0/controllers/messages.js:86-106 | the page fails iff one of the first 20 candidates has an author that is not a member |
| MessageQueries.GetMessagesAnswersPage | src/v1_0/controllers/messages.js:15-107 | NotFound iff the caller reaches no chat; never silent; Error iff an author among the first 20 candidates is unresolved; otherwise the page with the default cursor of now + 1000 |
| ParticipantQueries.ParticipantsChat | src/v1_0/controllers/participants.js:133-153 | a found chat is a stored live chat with the uuid in the caller's tenant; a caller without identity finds none |
| ParticipantQueries.GetParticipantsVisibility | src/v1_0/controllers/participants.js:129-177 | Error exactly when the caller has no identity (the join query then carries an undefined tenant, which the database layer refuses); a user: NotFound iff the tenant has no live chat with the uuid; a client: NotFound iff it is not a live member of that chat; otherwise the members of the tenant's first live chat with the uuid |
| ParticipantQueries.GetParticipantsListsMembers | src/v1_0/controllers/participants.js:164-171 | every listed view is the clean view of a member, and every member is listed |
| ChatService.Poster | src/v1_0/controllers/messages.js:157-176 | a member standing for the caller by realId and role with no earlier member doing so, and none iff no member does |
| ChatService.FirstTarget | src/v1_0/controllers/participants.js:194-199 | a row the identity update rewrites with no earlier row rewritten, and none iff it rewrites none |
| ChatService.Store.AddParticipant | src/v1_0/controllers/chat.js:41 | appends one live link row; the participant becomes the chat's last member; nothing else changes |
| ChatService.Store.CreateParticipant | src/v1_0/controllers/participants.js:44-51 | appends the participant row and its link row; the chat's members grow by exactly that participant |
| ChatService.Store.PostSystemMessage | src/v1_0/controllers/chat.js:288-309 | appends one system message and one MESSAGE_CREATED with participantId '-1', type 'system' and the chat uuid |
| ChatService.Store.Activate | src/v1_0/controllers/participants.js:56-70 | sets one chat to active with the new updatedAt and publishes CHAT_UPDATED with that row |
| ChatService.Store.CreateChat | src/v1_0/controllers/chat.js:18-68 | a non-client gets Error and nothing changes; otherwise the client's participant is found or created, one chat with the default status open is appended with that participant as its only member, and one CHAT_CREATED whose clean view is the answer |
| ChatService.Store.OpenChat | src/v1_0/controllers/chat.js:37-61 | appends the chat with the creator's uuid and one link row; the answer is the room with the creator alone; one CHAT_CREATED carries it |
| ChatService.Store.UpdateChat | src/v1_0/controllers/chat.js:233-320 | a client, a caller without identity, or no matching chat: NotFound and nothing changes; otherwise every matching chat takes the status, the answer is the first one, and CHAT_UPDATED with the member list then "<name> ended the chat" and its MESSAGE_CREATED follow |
| ChatService.Store.AnnounceEnded | src/v1_0/controllers/chat.js:266-310 | CHAT_UPDATED with the chat and its members, then the system message and its MESSAGE_CREATED with the chat uuid echoed in the raw view |
| ChatService.Store.Join | src/v1_0/controllers/participants.js:22-127 | a non-user or no matching chat: NotFound and nothing changes; otherwise a new user participant and link row every time, open becomes active with one CHAT_UPDATED, then PARTICIPANT_JOINED, the "has joined the room" message and its MESSAGE_CREATED |
| ChatService.Store.JoinAt | src/v1_0/controllers/participants.js:44-122 | the same effects for a chat already found: exact new tables, the members grow by the new participant, and the events in order |
| ChatService.Store.AnnounceJoin | src/v1_0/controllers/participants.js:72-115 | PARTICIPANT_JOINED with the clean participant and the chat uuid, then the system message and its MESSAGE_CREATED, both with the current members |
| ChatService.Store.CreateMessage | src/v1_0/controllers/messages.js:110-219 | NotFound with nothing changed when no chat is reachable or the caller is not a member; otherwise one message with the text, the caller's tenant, the chat and the author's internal id; the answer carries the author's uuid and role and the chat uuid, and resolves back to the author; one MESSAGE_CREATED carries it |
| ChatService.Store.ComposeMessage | src/v1_0/controllers/messages.js:221-242 | no table changes; one MESSAGE_COMPOSED with the token's ids and the chat uuid and text; the answer is empty |
| ChatService.Store.UpdateParticipant | src/v1_0/controllers/participants.js:179-211 | the name/email rewrite of the matching rows, no other table changes, and PARTICIPANT_UPDATED for the first rewritten row only, or no event |

## Left out

- Routing, CORS, rate limits, server start, JWT checking and trial or billing gating: they run outside the controllers.
- The RPC and subscription registration (src/v1_0/rpc.js, src/v1_0/subscriptions/clients.js): they only wire `getChatPromise` and `updateParticipantPromise` to the bus.
- Asynchronous ordering: un-awaited promise chains and the race between answering and publishing. Each handler is one sequential trace in program order, and the answer is the method's result.
- Storage and bus failures (`.catch(logger.error)` paths), the bus delivery behind `publish`, and the timestamps of events, which take the handler's clock.
- Sequelize and SQL mechanics: query planning, `include` joins beyond the membership, column validation and `lodash/pick`. uuid generation and `new Date()` are parameters.
- Falsy or empty identifiers: an id present in the token is treated as given, even when JavaScript would read it as false.
- Undefined query values: a caller without a client id in `createChat` is answered with Error instead of reaching the database with an undefined realId.
- Undefined query values in `getParticipants`: a caller with neither a client nor a user id reaches `findWhereParticipant` with an undefined tenant, which the database layer refuses; the model answers Error without modelling the rejected query.
- Undefined query values in `join`, `getMessages` and `createMessage`: a caller with neither a client nor a user id is answered NotFound, while the source runs its lookups with undefined ids and tenant, whose outcome depends on the database driver.
- ChatService.Store.UpdateChat: the status is one of the three enum values; a value outside the enum, which the database rejects, is not modelled.
- ChatService.Store.CreateMessage: the source re-reads the chat by id to find the caller's membership; the model uses the chat it already found, which in a well-formed store is the same row.
- The seeders' fixture rows and the integration tests' scenarios are not restated as concrete lemmas.
- Migrations: only the status enum and the autoincrement ids are taken from them.
