# Workly marketplace backend and project form, modelled in Dafny

Workly is a freelance marketplace. Its backend is an Express server with a
socket.io channel that keeps users, profiles, service requests, bids and
messages in plain in-memory objects (`backend/server.ts`). Clients post service
requests, freelancers bid on them, and the client accepts one bid: that bid
becomes accepted, its siblings rejected and the request in progress. Users also
exchange messages over sockets and read their history over HTTP, which marks
incoming messages as read. The web client's post-a-project page validates its
form before submitting (`app/post-project/page.tsx`).

The model:

- `common.dfy` (module `Common`) holds the shared vocabulary:
  - `Option` and the HTTP `Reply` (`Done(status, body)` or `Refused(status, error)`);
  - the order-preserving `Filter` that `Object.values(...).filter(...)` performs;
  - tables kept as a map plus the insertion order of their keys (`IsOrderOf`);
  - the bearer-token split of the Authorization header.
- `records.dfy` (module `Records`) holds the stored records, the zod schemas as predicates, and the records the routes build.
- `ledger.dfy` (module `Ledger`) is the request/bid state machine on values:
  - the lifecycle invariant of the two tables;
  - the accept step (`Settle`, `StartWork`) and the in-place rejection loop;
  - proofs that every mutating route keeps the invariant.
- `messaging.dfy` (module `Messaging`) is the message log on values: who may read a conversation, what a conversation holds, and what a read marks.
- `backend.dfy` (module `Backend`) holds the class `Server`:
  - one field per table, a key-order field per enumerated table, and the live sockets;
  - one method or function per route and socket event, each with its status codes and error texts;
  - `Valid()`, the whole-state invariant every route keeps.
- `post_project.dfy` (module `PostProject`) holds the form's data and error records, `validateForm` as a method, and the three change handlers as functions from page state to page state.
- `findings.dfy` (module `Findings`) holds the user check as JavaScript evaluates it on a plain object (see Findings).

How the model stands in for the outside world:

- Node runs each handler to completion, so every route is one state transition of a `Server` object.
- The caller of an HTTP route is the bearer token (`Common.BearerToken` of the Authorization header). When there is none, the caller is "".
- Fresh identifiers (uuidv4) and the current time (`new Date()`, in milliseconds) are parameters.
- zod's e-mail check is the parameter `isEmail` of the server.
- The list routes build their replies with `Common.Filter` over `Common.Values` in the table's key order, so a reply keeps posting order. Their contracts state which records are listed and that none is listed twice; the order itself is stated only by `Common.FilterSnoc` and `Common.Values`.
- JavaScript's `Number` on the budget text is the parameter `toNumber` of `ValidateForm`.

## Model

| member | source | states |
|---|---|---|
| Common.Filter | backend/server.ts:165-173 | the result keeps exactly the elements of the input that pass the predicate, and only passing ones, in the order of the input (`Common.FilterSnoc`) |
| Common.FilterSnoc | backend/server.ts:361-365 | filtering a list extended by one element extends the filtered list by that element exactly when it passes |
| Common.FilterKeepsAll | backend/server.ts:361-365 | a filter every element passes returns its input unchanged |
| Common.FilterAgrees | backend/server.ts:361-365 | two predicates that agree on every element give the same filtered list |
| Common.FilterKeepsDistinct | backend/server.ts:165-173 | filtering a duplicate-free list leaves it duplicate-free |
| Common.ValuesDistinct | backend/server.ts:165 | `Object.values` of a table whose records carry their own keys lists no record twice |
| Common.OrderExactly | backend/server.ts:22-27 | a key order lists exactly the keys of its table |
| Common.Values | backend/server.ts:165 | `Object.values` over a list of keys yields the stored value of each key, in key order |
| Common.ValuesOfOrder | backend/server.ts:165 | enumerating a table in its key order yields exactly the values of the table |
| Common.OrderAppend | backend/server.ts:65 | storing under a fresh key appends that key to the enumeration order |
| Common.BearerToken | backend/server.ts:128 | the token is the text after the first space of the header up to the next space; it never contains a space |
| Common.BearerTokenOf | backend/server.ts:86-91 | the header `bearer <id>` built from a login reply carries exactly `<id>` as its token |
| Common.BearerTokenNeedsSpace | backend/server.ts:128 | a header without a space carries no token, so the caller is refused as unknown |
| Records.ParseRole | backend/server.ts:34 | the role is client exactly for "client" and freelancer exactly for "freelancer"; any other text is rejected |
| Records.ValidUserData | backend/server.ts:30-35 | definition of `UserSchema`; `Backend.Server.Register` proves that failing it gives 400 and changes nothing |
| Records.ValidFreelancerProfile | backend/server.ts:42-47 | definition of `FreelancerProfileSchema`; `Backend.Server.CreateFreelancerProfile` proves that failing it gives 400 and changes nothing |
| Records.ValidRequestInput | backend/server.ts:49-57 | definition of `ServiceRequestSchema`; `Backend.Server.CreateServiceRequest` proves that failing it gives 400 and changes nothing |
| Records.Join | backend/server.ts:138 | definition of `Array.prototype.join`; only the prefix in front of it is promised, by `Records.EnhancedDescription` |
| Records.EnhancedDescription | backend/server.ts:138 | the stored rewrite starts with "Enhanced: " followed by the posted description |
| Records.NewRequest | backend/server.ts:140-148 | definition of the stored request; `Backend.Server.CreateServiceRequest` proves it is open, owned by the caller and expires 7 days after creation |
| Records.NewBid | backend/server.ts:196-205 | definition of the stored bid; `Backend.Server.CreateBid` proves it is pending, by the caller, on the posted request, created now |
| Ledger.AcceptInOrder | backend/server.ts:283-291 | marking the bid accepted and then rejecting, in table order, every other bid on its request yields exactly `Settle` of the old bid table |
| Ledger.Lifecycle | backend/server.ts:253-297 | definition of the request and bid lifecycle invariant; its preservation is proved by `Ledger.CreateRequestKeepsLifecycle`, `Ledger.CreateBidKeepsLifecycle` and `Ledger.AcceptKeepsLifecycle` |
| Ledger.Settle | backend/server.ts:283-291 | definition of the bid writes of an accept; its properties are proved by `Ledger.SettleExactly`, `Ledger.SettleKeepsAllButStatus` and `Ledger.SettleCounts` |
| Ledger.StartWork | backend/server.ts:284 | definition of the request write of an accept; its properties are proved by `Ledger.StartWorkKeepsAllButStatus` and `Ledger.AcceptTransitions` |
| Ledger.AcceptTransitions | backend/server.ts:283-291 | an accept moves bids only from pending to accepted or rejected, and requests only from open to in progress |
| Ledger.SettleExactly | backend/server.ts:283-291 | after settling, the chosen bid is accepted, every other bid on its request is rejected, and bids on other requests are unchanged; no bid is added or removed |
| Ledger.SettleKeepsAllButStatus | backend/server.ts:283-291 | settling changes no bid's id, request or author |
| Ledger.StartWorkKeepsAllButStatus | backend/server.ts:284 | starting work changes no request's id or owner and adds or removes none |
| Ledger.PendingIffOpen | backend/server.ts:278-291 | under the invariant a bid is pending exactly while its request is open, so the missing pending check never matters |
| Ledger.OneWinner | backend/server.ts:283-291 | under the invariant a request has at most one accepted bid |
| Ledger.CreateRequestKeepsLifecycle | backend/server.ts:140-150 | storing a new open request keeps the lifecycle invariant |
| Ledger.CreateBidKeepsLifecycle | backend/server.ts:187-207 | storing a pending bid on an open request keeps the lifecycle invariant |
| Ledger.AcceptKeepsLifecycle | backend/server.ts:268-291 | accepting a bid of an open request keeps the lifecycle invariant: open requests have only pending bids, an accepted bid's request is in progress with every sibling rejected |
| Ledger.SettleCounts | backend/server.ts:283-291 | after settling, the chosen bid is the only accepted bid on its request and all the others on it are rejected |
| Messaging.MarkInOrder | backend/server.ts:367-372 | the read-marking loop over the log yields exactly `MarkRead` of the old log |
| Messaging.MayRead | backend/server.ts:353-356 | definition of the history guard; its properties are proved by `Messaging.MarkReadKeepsAccess` and `Messaging.SendThenRead` |
| Messaging.MarkRead | backend/server.ts:368-372 | definition of the log after a read; its properties are proved by `Messaging.MarkReadExactly`, `Messaging.MarkReadKeepsAllButRead` and `Messaging.MarkReadIdempotent` |
| Messaging.Conversation | backend/server.ts:361-365 | definition of the replied conversation; its properties are proved by `Messaging.ConversationExactly` and `Messaging.SecondReadChangesNothing` |
| Messaging.ConversationIds | backend/server.ts:361-365 | every id in a conversation is a stored message |
| Messaging.MarkReadExactly | backend/server.ts:368-372 | marking sets the read flag of exactly the messages from the peer to the caller and changes nothing else |
| Messaging.MarkReadKeepsAllButRead | backend/server.ts:368-372 | marking changes no message's id, sender or receiver |
| Messaging.MarkReadIdempotent | backend/server.ts:368-372 | marking the same direction twice is marking it once |
| Messaging.MarkReadKeepsAccess | backend/server.ts:353-356 | marking never changes who may read which conversation |
| Messaging.MarkReadKeepsConversationIds | backend/server.ts:361-372 | marking never changes which messages form a conversation |
| Messaging.ConversationExactly | backend/server.ts:361-365 | a conversation holds exactly the stored messages between the two users, in either direction |
| Messaging.SecondReadChangesNothing | backend/server.ts:353-374 | a second identical history read is still allowed, returns what the first returned and leaves the log as the first left it |
| Messaging.SendThenRead | backend/server.ts:320-372 | after A sends to B, B may read the history with A, and it ends with that message, already marked read |
| Backend.FirstWithEmail | backend/server.ts:80 | the index of the first user in registration order with the e-mail, or the end when no user has it |
| Backend.DuplicateEmailIsShadowed | backend/server.ts:60-80 | registering a second account with an e-mail already in use never changes which account a login with that e-mail reaches |
| Backend.AwardKeepsTables | backend/server.ts:283-291 | accepting keeps the request and bid tables keyed by id, in their key order, and owned by clients and freelancers |
| Backend.MarkReadKeepsTable | backend/server.ts:368-372 | marking keeps the message table keyed by id, in sending order, and sent by registered users |
| Backend.Server.constructor | backend/server.ts:21-27 | the server starts with every table empty and no live socket, and the whole-state invariant holds |
| Backend.Server.Known | backend/server.ts:159 | definition of the corrected user check; it agrees with the written one off the inherited names, by `Findings.ChecksAgreeOffPrototype` |
| Backend.Server.Register | backend/server.ts:60-75 | invalid user data gives 400 and changes nothing; valid data stores a user under the fresh id with the parsed role and appends it to the order |
| Backend.Server.Login | backend/server.ts:77-92 | success exactly when the first user registered with the e-mail has that password; the reply's access token and user id are that user's id, its token type "bearer" and its role the user's; otherwise 401 |
| Backend.Server.CreateClientProfile | backend/server.ts:94-108 | a caller that is not a known client gets 403 and nothing changes; a client's profile is stored under its id |
| Backend.Server.CreateFreelancerProfile | backend/server.ts:110-124 | not a known freelancer gives 403, then a profile failing the schema gives 400, both with no change; otherwise the profile is stored under the caller |
| Backend.Server.CreateServiceRequest | backend/server.ts:126-155 | 403 for a caller that is not a known client, 400 for a body failing the schema, both with no change; otherwise exactly one open request owned by the caller, expiring 7 days after creation, is added |
| Backend.Server.ListServiceRequests | backend/server.ts:157-176 | 403 for an unknown caller; a client gets exactly its own requests, a freelancer exactly the open ones, each once |
| Backend.Server.CreateBid | backend/server.ts:178-212 | 403 for a non-freelancer, 404 for an unknown request, 400 for a request that is not open, each with no change; otherwise exactly one pending bid by the caller is added and nothing else changes |
| Backend.Server.ListBids | backend/server.ts:214-251 | with a request id, its owner and every freelancer get exactly its bids and anyone else 403, also for an unknown id; without one, a freelancer gets exactly its bids and a client exactly the bids on its requests; every list holds each bid once |
| Backend.Server.AcceptBid | backend/server.ts:253-297 | 403, 404, 404, 403 and 400 in the route's order with no change at all; otherwise the request goes in progress and the bids are settled, and the accepted bid was pending |
| Backend.Server.Award | backend/server.ts:283-291 | the writes of a successful accept: the request goes in progress, the bids are settled, and the request and bid invariants are kept |
| Backend.Server.Connect | backend/server.ts:300-308 | a socket is accepted exactly when its user id is a registered user, and only then joins that user's room |
| Backend.Server.Send | backend/server.ts:310-337 | a message on a refused socket reaches no handler; empty content or receiver gives an error event and stores nothing; otherwise one unread message from the socket's user is appended and emitted to the receiver's room |
| Backend.Server.Disconnect | backend/server.ts:339-341 | the socket leaves its room and every other room stays as it was |
| Backend.Server.History | backend/server.ts:344-378 | 403 for an unknown caller and for a caller the peer never wrote to, with no change; otherwise the messages from the peer to the caller are marked read and the reply is the conversation in log order |
| Backend.Server.EnhanceDescription | backend/server.ts:381-403 | 403 for an unknown caller, 400 for empty text; otherwise the original text and a rewrite starting with "Enhanced: " and the text |
| PostProject.TrimStart | app/post-project/page.tsx:109 | the result is a suffix of the input, what was dropped is white space, and the result does not start with white space |
| PostProject.TrimEnd | app/post-project/page.tsx:109 | the result is a prefix of the input, what was dropped is white space, and the result does not end with white space |
| PostProject.Trim | app/post-project/page.tsx:109 | definition of `String.prototype.trim`; its properties are proved by `PostProject.TrimStart`, `PostProject.TrimEnd` and `PostProject.TrimEmptyIffBlank` |
| PostProject.NotPositive | app/post-project/page.tsx:118-120 | definition of `isNaN(n) \|\| n <= 0` on JavaScript numbers; `PostProject.ValidateForm` proves the budget message is set exactly when it holds or the text is empty |
| PostProject.TrimEmptyIffBlank | app/post-project/page.tsx:109-116 | `s.trim()` is empty exactly when every character of `s` is white space |
| PostProject.ValidateForm | app/post-project/page.tsx:98-140 | each of the six rules is checked on its own and sets its own message exactly when broken; the form is valid exactly when no message is set, and exactly when all six rules hold |
| PostProject.ToggleSkill | app/post-project/page.tsx:90-92 | a present skill is removed with every copy and nothing else; an absent one is appended at the end |
| PostProject.ToggleKeepsDistinct | app/post-project/page.tsx:88-94 | toggling never introduces a duplicate into a duplicate-free skill list |
| PostProject.ToggleTwice | app/post-project/page.tsx:88-94 | toggling twice restores the set of skills, and the very list when the skill was absent |
| PostProject.HandleSkillToggle | app/post-project/page.tsx:88-96 | only the skill list changes, by the toggle, and only the skills error changes, to empty |
| PostProject.HandleInputChange | app/post-project/page.tsx:80-86 | the edited input takes the value and its error is cleared; every other input and error is unchanged |
| PostProject.SelectCategory | app/post-project/page.tsx:292-297 | only the category changes, and no error is cleared |
| Findings.ListServiceRequestsAsWritten | backend/server.ts:157-176 | GET /api/service-requests with the user check as JavaScript evaluates it: a token naming an inherited member of a plain object passes and is served as a freelancer |
| Findings.PassesUserCheck | backend/server.ts:159 | definition of the user check as written; `Findings.PrototypeTokenSeesOpenRequests` shows it passing "constructor" |
| Findings.ChecksAgreeOffPrototype | backend/server.ts:159 | on tokens that are not inherited member names, the user check as written and the corrected one agree |
| Findings.PrototypeTokenSeesOpenRequests | backend/server.ts:159-174 | with the check as written, an unregistered caller whose token is "constructor" receives every open request; the corrected route refuses it with 403 |

## Left out

- The HTTP and socket transports are not modelled: Express routing, JSON parsing, CORS, `res.json` serialisation, socket.io rooms and delivery.
  - A route is a method call and a reply is a value.
  - A room is the set of live sockets joined under a user id.
- uuidv4, `new Date()` and zod's e-mail format check are parameters. The model does not capture that uuids are random or that clocks advance.
- The `catch` branches that answer 400 "Invalid bid data", "Invalid request" or "Failed to send message" only fire on exceptions that typed inputs cannot raise. They are left out.
- Request bodies are modelled with the types the schemas demand. Non-string ids, numbers sent as strings and other malformed JSON are outside the model.
- String lengths are lengths in characters, while zod counts UTF-16 code units. The two differ only outside the Basic Multilingual Plane.
- `Register` replies with the stored user record. The source's reply omits `createdAt`, and that one difference is not modelled.
- `Backend.Server.Login` compares the password with `==`, like the source's `!==`. Nothing is hashed in either.
- `Backend.Server.Connect` requires a socket id that is not yet connected. socket.io hands out fresh socket ids.
- JavaScript objects enumerate integer-like keys first. uuid keys are never integer-like, so `IsOrderOf` treats the enumeration order as insertion order.
- The form's JavaScript `Number` is the parameter `toNumber`, of type `Num`: NaN, finite reals and the two infinities. Rounding of decimal text to binary floating point is not modelled.
- `handleSubmit`, the toast calls, navigation and the commented-out POST in `app/post-project/page.tsx` are not modelled.
- The presentation files are not modelled: the landing, dashboard, login and register pages, the header, cards, sections, stats and the freelancer registration form. They hold markup, animation variants and simulated submits, with no domain logic.
- `Backend.Server.CreateBid` does not check the amount, delivery time or proposal, because the source stores them unchecked.
- `Backend.Server.CreateBid` models `serviceRequests[serviceRequestId]` as map membership. For a `serviceRequestId` among the twelve names of `Findings.PrototypeKeys` (such as "constructor"), the source finds the inherited member. Its `status` is `undefined`, so it answers 400 "This service request is no longer accepting bids" where the model answers 404, and stores nothing in either.
- `Backend.Server.ListBids` models `serviceRequests[serviceRequestId]` as map membership. For a `serviceRequestId` among the twelve names of `Findings.PrototypeKeys`, the source answers a freelancer 200 with an empty list, because no bid names such a request, where the model answers 403. A client gets 403 in both, because the inherited member has no `clientId`.
- `Backend.Server.AcceptBid` models `bids[bidId]` as map membership. For a `bidId` among the twelve names of `Findings.PrototypeKeys`, the source finds the inherited member, reads `undefined` as its request id and answers 404 "Service request not found" where the model answers 404 "Bid not found". Nothing changes in either.
- Where the written description of the system and the code disagree, the model follows the code:
  - `budgetMin <= budgetMax` is never checked;
  - a failing schema gives one generic error text, not per-field messages;
  - accepting a bid of a request that is no longer open is 400, not a conflict status;
  - any freelancer may list all bids on any request by its id;
  - history access needs a message from the peer to the caller, or the caller reading their own history;
  - registration never enforces unique e-mails (see `Backend.DuplicateEmailIsShadowed`);
  - no route ever moves a request to completed or cancelled.
- The category select clears no error, unlike the other inputs (`PostProject.SelectCategory`). This follows the code.

## Findings

| source | as written | input that shows it | evidently intended | confidence | as-written member | corrected member |
|---|---|---|---|---|---|---|
| backend/server.ts:159 | `!userId \|\| !users[userId]` looks the token up in a plain object, so names inherited from Object.prototype pass; the role test then sees `undefined` and takes the freelancer branch | GET /api/service-requests with `Authorization: Bearer constructor` and no user registered under that id: every open request is returned | only registered users pass, and anyone else gets 403 | medium, not executed | Findings.ListServiceRequestsAsWritten, Findings.PrototypeTokenSeesOpenRequests | Backend.Server.ListServiceRequests |

Lines 97, 113, 129, 181, 216, 256, 303, 349 and 384 of the same file use the same check.
- The role-checked routes (lines 97, 113, 129, 181 and 256) still refuse such a token, because `undefined` is no role.
- GET /api/bids (line 216) accepts it. Without `serviceRequestId` it takes the client branch, because `undefined` is not 'freelancer', and answers 200 with an empty list where `Backend.Server.ListBids` answers 403.
- The history, enhance and connect handlers accept it.

The request and bid tables are plain objects too, so the same names also pass the id lookups of the bid routes (see the `Backend.Server.CreateBid`, `Backend.Server.ListBids` and `Backend.Server.AcceptBid` lines under "## Left out").

The rest of the model evaluates the check as `Backend.Server.Known`, which holds for registered users only. `Findings.ChecksAgreeOffPrototype` shows that the written check and `Known` agree on every token that is not an inherited member name.
