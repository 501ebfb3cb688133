/** The user check of the backend as JavaScript evaluates it. The tables are
    plain objects (`{}`), so `users[userId]` also finds the members every object
    inherits from Object.prototype, and `!users[userId]` is false for those names
    although no user was ever stored under them. `Backend.Server.Known` is the
    check the routes evidently mean: a registered user. */
module Findings {
  import opened Common
  import opened Records
  import opened Backend

  /** The names a plain object inherits from Object.prototype; each is a function
      or, for `__proto__`, an object, so a lookup under it is truthy. */
  const PrototypeKeys: set<string> := {
    "constructor", "hasOwnProperty", "isPrototypeOf", "propertyIsEnumerable",
    "toLocaleString", "toString", "valueOf", "__proto__",
    "__defineGetter__", "__defineSetter__", "__lookupGetter__", "__lookupSetter__"}

  /** `userId && users[userId]` is truthy. */
  predicate PassesUserCheck(users: map<string, User>, userId: string) {
    userId != "" && (userId in users || userId in PrototypeKeys)
  }

  /** GET /api/service-requests as written. For an inherited member `userType`
      is undefined, which is not 'client', so the route takes the freelancer branch. */
  function ListServiceRequestsAsWritten(s: Server, caller: string): (r: Reply<seq<ServiceRequest>>)
    reads s
    requires s.Valid()
    ensures !PassesUserCheck(s.users, caller) ==> r == Refused(403, Unauthorized)
    ensures PassesUserCheck(s.users, caller) ==> r.Done? && r.status == 200
  {
    if !PassesUserCheck(s.users, caller) then Refused(403, Unauthorized)
    else
      ValuesOfOrder(s.requestOrder, s.requests);
      var all := Values(s.requestOrder, s.requests);
      if caller in s.users && s.users[caller].role == Client then Done(200, Filter(all, (q: ServiceRequest) => q.clientId == caller))
      else Done(200, Filter(all, (q: ServiceRequest) => q.status == Open))
  }

  /** A caller that never registered, sending the token "constructor", is served
      every open request as if it were a freelancer; the corrected route refuses it. */
  lemma PrototypeTokenSeesOpenRequests(s: Server)
    requires s.Valid() && "constructor" !in s.users
    ensures ListServiceRequestsAsWritten(s, "constructor").Done?
    ensures forall q :: q in ListServiceRequestsAsWritten(s, "constructor").value <==> q in s.requests.Values && q.status == Open
    ensures s.ListServiceRequests("constructor") == Refused(403, Unauthorized)
  {
    ValuesOfOrder(s.requestOrder, s.requests);
  }

  /** On names that are not inherited members the written check and the corrected
      one agree, so the correction changes nothing for uuid tokens. */
  lemma ChecksAgreeOffPrototype(s: Server, caller: string)
    requires caller !in PrototypeKeys
    ensures PassesUserCheck(s.users, caller) <==> s.Known(caller)
  {
  }
}
