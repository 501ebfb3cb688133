/** The in-memory marketplace backend: its tables and one member per HTTP route
    and socket event. Node runs each handler to completion before the next one
    starts, so every handler is a state transition of one `Server` object.
    The caller of an HTTP route is the bearer token (`Common.BearerToken` of the
    Authorization header), "" when there is none; fresh identifiers (uuidv4) and
    the current time (new Date()) are parameters. */
module Backend {
  import opened Common
  import opened Records
  import opened Ledger
  import opened Messaging

  const Unauthorized: string := "Unauthorized"
  const InvalidUserData: string := "Invalid user data"
  const InvalidCredentials: string := "Invalid credentials"
  const InvalidProfileData: string := "Invalid profile data"
  const InvalidRequestData: string := "Invalid request data"
  const RequestNotFound: string := "Service request not found"
  const NotAcceptingBids: string := "This service request is no longer accepting bids"
  const BidsForbidden: string := "Not authorized to view these bids"
  const BidNotFound: string := "Bid not found"
  const AcceptForbidden: string := "Not authorized to accept this bid"
  const NoLongerOpen: string := "This service request is no longer open"
  const BidAccepted: string := "Bid accepted successfully"
  const InvalidMessageFormat: string := "Invalid message format"
  const MessagesForbidden: string := "Not authorized to view these messages"
  const TextRequired: string := "Text field is required"

  /** What the enhance-description route appends to the text. */
  const EnhanceTail: string :=
    "\n\nThis project requires a skilled professional with attention to detail. The ideal candidate will have experience with similar projects and a portfolio demonstrating relevant work."

  /** The body of the enhance-description route. */
  datatype Enhancement = Enhancement(original: string, enhanced: string)

  /** What a `message` event on a socket leads to: nothing (the socket was refused
      at connection, so no handler listens), an `error` event back to the sender,
      or the stored message emitted to every socket in the receiver's room. */
  datatype SendEvent = Ignored | ErrorEvent(text: string) | Delivered(message: Message, reached: set<string>)

  /** The position in `order` of the first user with `email`, or |order| when none
      has it: `Object.values(users).find(u => u.email === email)`. */
  function FirstWithEmail(order: seq<string>, users: map<string, User>, email: string): (i: nat)
    requires forall k :: k in order ==> k in users
    ensures i <= |order|
    ensures i < |order| ==> users[order[i]].email == email
    ensures forall j :: 0 <= j < i ==> users[order[j]].email != email
  {
    if order == [] then 0
    else if users[order[0]].email == email then 0
    else 1 + FirstWithEmail(order[1..], users, email)
  }

  /** Registering a second account under an e-mail already in use never changes
      which account a login with that e-mail reaches: the earlier one. */
  lemma {:induction false} DuplicateEmailIsShadowed(order: seq<string>, users: map<string, User>, id: string, u: User)
    requires forall k :: k in order ==> k in users
    requires id !in users
    requires FirstWithEmail(order, users, u.email) < |order|
    ensures FirstWithEmail(order + [id], users[id := u], u.email) == FirstWithEmail(order, users, u.email)
  {
    if users[order[0]].email != u.email {
      assert (order + [id])[1..] == order[1..] + [id];
      DuplicateEmailIsShadowed(order[1..], users, id, u);
    }
  }

  /** Requests are keyed by their ids, enumerated by `order`, and owned by clients. */
  ghost predicate RequestTable(users: map<string, User>, order: seq<string>, requests: Requests) {
    && IsOrderOf(order, requests)
    && forall k :: k in requests ==>
         requests[k].id == k && requests[k].clientId in users && users[requests[k].clientId].role == Client
  }

  /** Bids are keyed by their ids, enumerated by `order`, and authored by freelancers. */
  ghost predicate BidTable(users: map<string, User>, order: seq<string>, bids: Bids) {
    && IsOrderOf(order, bids)
    && forall k :: k in bids ==>
         bids[k].id == k && bids[k].freelancerId in users && users[bids[k].freelancerId].role == Freelancer
  }

  /** A successful accept keeps both tables well formed. */
  lemma AwardKeepsTables(users: map<string, User>, requestOrder: seq<string>, requests: Requests,
                         bidOrder: seq<string>, bids: Bids, rid: string, bidId: string)
    requires RequestTable(users, requestOrder, requests) && BidTable(users, bidOrder, bids) && rid in requests
    ensures RequestTable(users, requestOrder, StartWork(requests, rid))
    ensures BidTable(users, bidOrder, Settle(bids, rid, bidId))
  {
    SettleKeepsAllButStatus(bids, rid, bidId);
    StartWorkKeepsAllButStatus(requests, rid);
  }

  /** Messages are keyed by their ids, enumerated by `order`, and sent by registered users. */
  ghost predicate MessageTable(users: map<string, User>, order: seq<string>, messages: Messages) {
    IsOrderOf(order, messages) && forall k :: k in messages ==> messages[k].id == k && messages[k].senderId in users
  }

  /** Reading a history keeps the message table well formed. */
  lemma MarkReadKeepsTable(users: map<string, User>, order: seq<string>, messages: Messages, from: string, to: string)
    requires MessageTable(users, order, messages)
    ensures MessageTable(users, order, MarkRead(messages, from, to))
  {
    MarkReadKeepsAllButRead(messages, from, to);
  }

  class Server {
    /** The e-mail format check of the validation library. */
    const isEmail: string -> bool

    var users: map<string, User>
    var userOrder: seq<string>
    var clientProfiles: map<string, ClientProfile>
    var freelancerProfiles: map<string, FreelancerProfile>
    var requests: map<string, ServiceRequest>
    var requestOrder: seq<string>
    var bids: map<string, Bid>
    var bidOrder: seq<string>
    var messages: map<string, Message>
    var messageOrder: seq<string>
    /** The live sockets, each with the user whose room it joined. */
    var connections: map<string, string>

    /** Users are keyed by their ids and enumerated in registration order. */
    ghost predicate UsersValid()
      reads this`users, this`userOrder
    {
      IsOrderOf(userOrder, users) && "" !in users && forall k :: k in users ==> users[k].id == k
    }

    /** A profile belongs to a registered user of the matching role. */
    ghost predicate ProfilesValid()
      reads this`users, this`clientProfiles, this`freelancerProfiles
    {
      && (forall k :: k in clientProfiles ==> k in users && users[k].role == Client)
      && (forall k :: k in freelancerProfiles ==> k in users && users[k].role == Freelancer)
    }

    // RequestsValid, BidsValid and MessagesValid only apply the table predicates above
    // to the fields; their `reads` frames let a route that changes one table keep
    // the others' facts without re-proving them.

    /** Requests are keyed by their ids, enumerated in posting order, and owned by clients. */
    ghost predicate RequestsValid()
      reads this`users, this`requests, this`requestOrder
    {
      RequestTable(users, requestOrder, requests)
    }

    /** Bids are keyed by their ids, enumerated in posting order, and authored by freelancers. */
    ghost predicate BidsValid()
      reads this`users, this`bids, this`bidOrder
    {
      BidTable(users, bidOrder, bids)
    }

    /** The request and bid statuses obey the lifecycle invariant. */
    ghost predicate LedgerValid()
      reads this`requests, this`bids
    {
      Lifecycle(requests, bids)
    }

    /** Messages are keyed by their ids, enumerated in sending order, and sent by registered users. */
    ghost predicate MessagesValid()
      reads this`users, this`messages, this`messageOrder
    {
      MessageTable(users, messageOrder, messages)
    }

    /** Only registered users hold live sockets. */
    ghost predicate ConnectionsValid()
      reads this`users, this`connections
    {
      forall s :: s in connections ==> connections[s] in users
    }

    ghost predicate Valid()
      reads this
    {
      && UsersValid() && ProfilesValid() && RequestsValid() && BidsValid()
      && LedgerValid() && MessagesValid() && ConnectionsValid()
    }

    constructor (isEmail: string -> bool)
      ensures Valid() && this.isEmail == isEmail
      ensures users == map[] && clientProfiles == map[] && freelancerProfiles == map[]
      ensures requests == map[] && bids == map[] && messages == map[] && connections == map[]
    {
      this.isEmail := isEmail;
      users, userOrder := map[], [];
      clientProfiles, freelancerProfiles := map[], map[];
      requests, requestOrder := map[], [];
      bids, bidOrder := map[], [];
      messages, messageOrder := map[], [];
      connections := map[];
    }

    /** `!userId || !users[userId]` fails. */
    predicate Known(caller: string)
      reads this`users
    {
      caller != "" && caller in users
    }

    predicate HasRole(caller: string, role: Role)
      reads this`users
    {
      Known(caller) && users[caller].role == role
    }

    /** The sockets in `userId`'s room. */
    function Channel(userId: string): set<string>
      reads this`connections
    {
      set s | s in connections && connections[s] == userId
    }

    /** POST /api/users. Nothing checks that the e-mail is still unused. */
    method Register(email: string, fullName: string, password: string, userType: string, now: int, freshId: string)
      returns (r: Reply<User>)
      requires Valid() && freshId != "" && freshId !in users
      modifies this`users, this`userOrder
      ensures Valid()
      ensures r.Refused? ==> unchanged(this)
      ensures !ValidUserData(email, fullName, password, userType, isEmail) ==>
        r == Refused(400, InvalidUserData)
      ensures ValidUserData(email, fullName, password, userType, isEmail) ==>
        && r == Done(201, User(freshId, email, fullName, password, ParseRole(userType).value, now))
        && users == old(users)[freshId := r.value]
        && userOrder == old(userOrder) + [freshId]
    {
      if !ValidUserData(email, fullName, password, userType, isEmail) {
        return Refused(400, InvalidUserData);
      }
      var u := User(freshId, email, fullName, password, ParseRole(userType).value, now);
      OrderAppend(userOrder, users, freshId, u);
      users := users[freshId := u];
      userOrder := userOrder + [freshId];
      r := Done(201, u);
    }

    /** POST /api/auth/login: only the first account registered with `email` is
        ever tried; the token handed out is the user id itself. */
    function Login(email: string, password: string): (r: Reply<Session>)
      reads this
      requires Valid()
      ensures var i := FirstWithEmail(userOrder, users, email);
        r.Done? <==> i < |userOrder| && users[userOrder[i]].password == password
      ensures r.Refused? ==> r == Refused(401, InvalidCredentials)
      ensures r.Done? ==>
        && r.status == 200
        && r.value.userId == userOrder[FirstWithEmail(userOrder, users, email)]
        && r.value.accessToken == r.value.userId && r.value.tokenType == "bearer"
        && r.value.userId in users
        && users[r.value.userId].email == email && users[r.value.userId].password == password
        && r.value.userType == users[r.value.userId].role
    {
      var i := FirstWithEmail(userOrder, users, email);
      if i == |userOrder| || users[userOrder[i]].password != password then Refused(401, InvalidCredentials)
      else
        var u := users[userOrder[i]];
        Done(200, Session(u.id, "bearer", u.id, u.role))
    }

    /** POST /api/client-profile: both fields are optional strings, so only the role is checked. */
    method CreateClientProfile(caller: string, profile: ClientProfile) returns (r: Reply<ClientProfile>)
      requires Valid()
      modifies this`clientProfiles
      ensures Valid()
      ensures r.Refused? ==> unchanged(this)
      ensures !HasRole(caller, Client) ==> r == Refused(403, Unauthorized)
      ensures HasRole(caller, Client) ==>
        r == Done(201, profile) && clientProfiles == old(clientProfiles)[caller := profile]
    {
      if !HasRole(caller, Client) {
        return Refused(403, Unauthorized);
      }
      clientProfiles := clientProfiles[caller := profile];
      r := Done(201, profile);
    }

    /** POST /api/freelancer-profile: the role is checked before the body. */
    method CreateFreelancerProfile(caller: string, profile: FreelancerProfile) returns (r: Reply<FreelancerProfile>)
      requires Valid()
      modifies this`freelancerProfiles
      ensures Valid()
      ensures r.Refused? ==> unchanged(this)
      ensures !HasRole(caller, Freelancer) ==> r == Refused(403, Unauthorized)
      ensures HasRole(caller, Freelancer) && !ValidFreelancerProfile(profile) ==>
        r == Refused(400, InvalidProfileData)
      ensures HasRole(caller, Freelancer) && ValidFreelancerProfile(profile) ==>
        r == Done(201, profile) && freelancerProfiles == old(freelancerProfiles)[caller := profile]
    {
      if !HasRole(caller, Freelancer) {
        return Refused(403, Unauthorized);
      }
      if !ValidFreelancerProfile(profile) {
        return Refused(400, InvalidProfileData);
      }
      freelancerProfiles := freelancerProfiles[caller := profile];
      r := Done(201, profile);
    }

    /** POST /api/service-requests. */
    method CreateServiceRequest(caller: string, input: RequestInput, now: int, freshId: string)
      returns (r: Reply<ServiceRequest>)
      requires Valid() && freshId != "" && freshId !in requests
      modifies this`requests, this`requestOrder
      ensures Valid()
      ensures r.Refused? ==> unchanged(this)
      ensures !HasRole(caller, Client) ==> r == Refused(403, Unauthorized)
      ensures HasRole(caller, Client) && !ValidRequestInput(input) ==>
        r == Refused(400, InvalidRequestData)
      ensures HasRole(caller, Client) && ValidRequestInput(input) ==>
        && r == Done(201, NewRequest(freshId, caller, input, now))
        && requests == old(requests)[freshId := r.value]
        && requestOrder == old(requestOrder) + [freshId]
      ensures r.Done? ==>
        && r.value.id == freshId && r.value.clientId == caller && r.value.status == Open
        && r.value.createdAt == now && r.value.expiresAt == now + WeekMs
        && r.value.title == input.title && r.value.description == input.description
        && r.value.skillsRequired == input.skillsRequired
        && r.value.budgetMin == input.budgetMin && r.value.budgetMax == input.budgetMax
        && r.value.deadlineDays == input.deadlineDays
        && "Enhanced: " + input.description <= r.value.enhancedDescription
    {
      if !HasRole(caller, Client) {
        return Refused(403, Unauthorized);
      }
      if !ValidRequestInput(input) {
        return Refused(400, InvalidRequestData);
      }
      var q := NewRequest(freshId, caller, input, now);
      CreateRequestKeepsLifecycle(requests, bids, freshId, q);
      OrderAppend(requestOrder, requests, freshId, q);
      requests := requests[freshId := q];
      requestOrder := requestOrder + [freshId];
      r := Done(201, q);
    }

    /** GET /api/service-requests: a client sees its own requests, a freelancer
        every open request. */
    function ListServiceRequests(caller: string): (r: Reply<seq<ServiceRequest>>)
      reads this
      requires Valid()
      ensures !Known(caller) ==> r == Refused(403, Unauthorized)
      ensures Known(caller) ==> r.Done? && r.status == 200
      ensures HasRole(caller, Client) ==>
        r.Done? && forall q :: q in r.value <==> q in requests.Values && q.clientId == caller
      ensures HasRole(caller, Freelancer) ==>
        r.Done? && forall q :: q in r.value <==> q in requests.Values && q.status == Open
      ensures r.Done? ==> Distinct(r.value)
    {
      if !Known(caller) then Refused(403, Unauthorized)
      else
        ValuesOfOrder(requestOrder, requests);
        ValuesDistinct(requestOrder, requests, (q: ServiceRequest) => q.id);
        var all := Values(requestOrder, requests);
        FilterKeepsDistinct(all, (q: ServiceRequest) => q.clientId == caller);
        FilterKeepsDistinct(all, (q: ServiceRequest) => q.status == Open);
        if users[caller].role == Client then Done(200, Filter(all, (q: ServiceRequest) => q.clientId == caller))
        else Done(200, Filter(all, (q: ServiceRequest) => q.status == Open))
    }

    /** POST /api/bids: the body's amount, delivery time and proposal are stored unchecked. */
    method CreateBid(caller: string, input: BidInput, now: int, freshId: string) returns (r: Reply<Bid>)
      requires Valid() && freshId != "" && freshId !in bids
      modifies this`bids, this`bidOrder
      ensures Valid()
      ensures r.Refused? ==> unchanged(this)
      ensures !HasRole(caller, Freelancer) ==> r == Refused(403, Unauthorized)
      ensures HasRole(caller, Freelancer) && input.serviceRequestId !in requests ==>
        r == Refused(404, RequestNotFound)
      ensures HasRole(caller, Freelancer) && input.serviceRequestId in requests &&
              requests[input.serviceRequestId].status != Open ==>
        r == Refused(400, NotAcceptingBids)
      ensures HasRole(caller, Freelancer) && input.serviceRequestId in requests &&
              requests[input.serviceRequestId].status == Open ==>
        && r == Done(201, NewBid(freshId, caller, input, now))
        && bids == old(bids)[freshId := r.value]
        && bidOrder == old(bidOrder) + [freshId]
      ensures r.Done? ==>
        && r.value.id == freshId && r.value.status == Pending && r.value.freelancerId == caller
        && r.value.serviceRequestId == input.serviceRequestId && r.value.createdAt == now
    {
      if !HasRole(caller, Freelancer) {
        return Refused(403, Unauthorized);
      }
      if input.serviceRequestId !in requests {
        return Refused(404, RequestNotFound);
      }
      if requests[input.serviceRequestId].status != Open {
        return Refused(400, NotAcceptingBids);
      }
      var b := NewBid(freshId, caller, input, now);
      CreateBidKeepsLifecycle(requests, bids, freshId, b);
      OrderAppend(bidOrder, bids, freshId, b);
      bids := bids[freshId := b];
      bidOrder := bidOrder + [freshId];
      r := Done(201, b);
    }

    /** GET /api/bids, with `serviceRequestId` the query parameter ("" when absent).
        Given a request id, its owner and every freelancer see all of its bids; an
        unknown id is refused like a foreign one. Without one, a freelancer sees
        its own bids and a client the bids on its requests. */
    function ListBids(caller: string, serviceRequestId: string): (r: Reply<seq<Bid>>)
      reads this
      requires Valid()
      ensures !Known(caller) ==> r == Refused(403, Unauthorized)
      ensures Known(caller) && serviceRequestId != "" ==>
        if serviceRequestId in requests
           && (requests[serviceRequestId].clientId == caller || users[caller].role == Freelancer)
        then r.Done? && r.status == 200
          && forall b :: b in r.value <==> b in bids.Values && b.serviceRequestId == serviceRequestId
        else r == Refused(403, BidsForbidden)
      ensures HasRole(caller, Freelancer) && serviceRequestId == "" ==>
        r.Done? && r.status == 200 && forall b :: b in r.value <==> b in bids.Values && b.freelancerId == caller
      ensures HasRole(caller, Client) && serviceRequestId == "" ==>
        r.Done? && r.status == 200
        && forall b :: b in r.value <==>
             b in bids.Values && b.serviceRequestId in requests && requests[b.serviceRequestId].clientId == caller
      ensures r.Done? ==> Distinct(r.value)
    {
      if !Known(caller) then Refused(403, Unauthorized)
      else
        ValuesOfOrder(bidOrder, bids);
        ValuesDistinct(bidOrder, bids, (b: Bid) => b.id);
        var all := Values(bidOrder, bids);
        if serviceRequestId != "" then
          if serviceRequestId in requests
             && (requests[serviceRequestId].clientId == caller || users[caller].role == Freelancer)
          then
            FilterKeepsDistinct(all, (b: Bid) => b.serviceRequestId == serviceRequestId);
            Done(200, Filter(all, (b: Bid) => b.serviceRequestId == serviceRequestId))
          else Refused(403, BidsForbidden)
        else if users[caller].role == Freelancer then
          FilterKeepsDistinct(all, (b: Bid) => b.freelancerId == caller);
          Done(200, Filter(all, (b: Bid) => b.freelancerId == caller))
        else
          var table := requests;
          var mine := Filter(requestOrder, (k: string) => k in table && table[k].clientId == caller);
          FilterKeepsDistinct(all, (b: Bid) => b.serviceRequestId in mine);
          Done(200, Filter(all, (b: Bid) => b.serviceRequestId in mine))
    }

    /** PUT /api/bids/:bidId/accept. The route never checks that the bid is
        pending; under Valid() a bid of an open request always is. */
    method AcceptBid(caller: string, bidId: string) returns (r: Reply<string>)
      requires Valid()
      modifies this`bids, this`requests
      ensures Valid()
      ensures r.Refused? ==> unchanged(this)
      ensures !HasRole(caller, Client) ==> r == Refused(403, Unauthorized)
      ensures HasRole(caller, Client) && bidId !in old(bids) ==> r == Refused(404, BidNotFound)
      ensures HasRole(caller, Client) && bidId in old(bids) ==>
        var rid := old(bids[bidId].serviceRequestId);
        if rid !in old(requests) then r == Refused(404, RequestNotFound)
        else if old(requests[rid].clientId) != caller then r == Refused(403, AcceptForbidden)
        else if old(requests[rid].status) != Open then r == Refused(400, NoLongerOpen)
        else
          && r == Done(200, BidAccepted)
          && requests == StartWork(old(requests), rid)
          && bids == Settle(old(bids), rid, bidId)
      ensures r.Done? ==> bidId in old(bids) && old(bids[bidId].status) == Pending
    {
      if !HasRole(caller, Client) {
        return Refused(403, Unauthorized);
      }
      if bidId !in bids {
        return Refused(404, BidNotFound);
      }
      var bid := bids[bidId];
      var requestId := bid.serviceRequestId;
      if requestId !in requests {
        return Refused(404, RequestNotFound);
      }
      var request := requests[requestId];
      if request.clientId != caller {
        return Refused(403, AcceptForbidden);
      }
      if request.status != Open {
        return Refused(400, NoLongerOpen);
      }
      Award(requestId, bidId);
      r := Done(200, BidAccepted);
    }

    /** The writes of a successful accept: the request goes in progress and its
        bids are settled. */
    method Award(requestId: string, bidId: string)
      requires RequestsValid() && BidsValid() && LedgerValid()
      requires bidId in bids && bids[bidId].serviceRequestId == requestId
      requires requestId in requests && requests[requestId].status == Open
      modifies this`bids, this`requests
      ensures RequestsValid() && BidsValid() && LedgerValid()
      ensures requests == StartWork(old(requests), requestId)
      ensures bids == Settle(old(bids), requestId, bidId)
      ensures old(bids[bidId].status) == Pending
    {
      PendingIffOpen(requests, bids, bidId);
      AcceptKeepsLifecycle(requests, bids, bidId);
      AwardKeepsTables(users, requestOrder, requests, bidOrder, bids, requestId, bidId);
      bids := AcceptInOrder(bidOrder, bids, bidId);
      requests := StartWork(requests, requestId);
    }

    /** The `connection` event: a socket whose handshake names no registered user
        is disconnected; any other joins the room of that user. */
    method Connect(socket: string, userId: string) returns (accepted: bool)
      requires Valid() && socket !in connections
      modifies this`connections
      ensures Valid()
      ensures accepted <==> Known(userId)
      ensures connections == if accepted then old(connections)[socket := userId] else old(connections)
    {
      accepted := Known(userId);
      if accepted {
        connections := connections[socket := userId];
      }
    }

    /** A `message` event on `socket`: validated, stored unread under the socket's
        user, then emitted to the receiver's room, which may hold no socket. The
        receiver need not be a registered user. */
    method Send(socket: string, content: string, receiverId: string, now: int, freshId: string) returns (e: SendEvent)
      requires Valid() && freshId != "" && freshId !in messages
      modifies this`messages, this`messageOrder
      ensures Valid()
      ensures !e.Delivered? ==> unchanged(this)
      ensures socket !in connections ==> e == Ignored
      ensures socket in connections && (content == "" || receiverId == "") ==>
        e == ErrorEvent(InvalidMessageFormat)
      ensures socket in connections && content != "" && receiverId != "" ==>
        var msg := Message(freshId, content, connections[socket], receiverId, now, false);
        && e == Delivered(msg, Channel(receiverId))
        && messages == old(messages)[freshId := msg]
        && messageOrder == old(messageOrder) + [freshId]
    {
      if socket !in connections {
        return Ignored;
      }
      if content == "" || receiverId == "" {
        return ErrorEvent(InvalidMessageFormat);
      }
      var msg := Message(freshId, content, connections[socket], receiverId, now, false);
      OrderAppend(messageOrder, messages, freshId, msg);
      messages := messages[freshId := msg];
      messageOrder := messageOrder + [freshId];
      e := Delivered(msg, Channel(receiverId));
    }

    /** The `disconnect` event: the socket leaves its room; the user's other
        sockets stay, so the user is still reachable through them. */
    method Disconnect(socket: string)
      requires Valid()
      modifies this`connections
      ensures Valid()
      ensures connections == old(connections) - {socket}
      ensures forall u :: Channel(u) == old(Channel(u)) - {socket}
    {
      connections := connections - {socket};
    }

    /** GET /api/messages/:userId. The conversation array holds the same objects the
        read-marking loop then updates, so the reply shows them already read. */
    method History(caller: string, peer: string) returns (r: Reply<seq<Message>>)
      requires Valid()
      modifies this`messages
      ensures Valid()
      ensures r.Refused? ==> unchanged(this)
      ensures !Known(caller) ==> r == Refused(403, Unauthorized)
      ensures Known(caller) && !MayRead(old(messages), caller, peer) ==>
        r == Refused(403, MessagesForbidden)
      ensures Known(caller) && MayRead(old(messages), caller, peer) ==>
        && messages == MarkRead(old(messages), peer, caller)
        && r == Done(200, Conversation(messageOrder, messages, caller, peer))
    {
      if !Known(caller) {
        return Refused(403, Unauthorized);
      }
      if !MayRead(messages, caller, peer) {
        return Refused(403, MessagesForbidden);
      }
      var ids := ConversationIds(messageOrder, messages, caller, peer);
      MarkReadKeepsConversationIds(messageOrder, messages, peer, caller, caller, peer);
      MarkReadKeepsTable(users, messageOrder, messages, peer, caller);
      messages := MarkInOrder(messageOrder, messages, peer, caller);
      r := Done(200, Values(ids, messages));
    }

    /** POST /api/enhance-description: a fixed template around the text. */
    function EnhanceDescription(caller: string, text: string): (r: Reply<Enhancement>)
      reads this
      ensures !Known(caller) ==> r == Refused(403, Unauthorized)
      ensures Known(caller) && text == "" ==> r == Refused(400, TextRequired)
      ensures Known(caller) && text != "" ==>
        r.Done? && r.status == 200 && r.value.original == text && "Enhanced: " + text <= r.value.enhanced
    {
      if !Known(caller) then Refused(403, Unauthorized)
      else if text == "" then Refused(400, TextRequired)
      else Done(200, Enhancement(text, "Enhanced: " + text + EnhanceTail))
    }
  }
}
