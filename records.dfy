/** The records the backend keeps in its four tables, and the request-body
    schemas it checks before storing them. Integers stand for JavaScript dates
    (milliseconds since the epoch), reals for JSON numbers. */
module Records {
  import opened Common

  datatype Role = Client | Freelancer

  /** `z.enum(['client', 'freelancer'])`. */
  function ParseRole(userType: string): (r: Option<Role>)
    ensures r == Some(Client) <==> userType == "client"
    ensures r == Some(Freelancer) <==> userType == "freelancer"
  {
    if userType == "client" then Some(Client)
    else if userType == "freelancer" then Some(Freelancer)
    else None
  }

  /** Status values of a service request, as declared for the database. */
  datatype RequestStatus = Open | InProgress | Completed | Cancelled

  /** Status values of a bid. */
  datatype BidStatus = Pending | Accepted | Rejected

  datatype User = User(id: string, email: string, fullName: string, password: string, role: Role, createdAt: int)

  datatype Session = Session(accessToken: string, tokenType: string, userId: string, userType: Role)

  datatype ClientProfile = ClientProfile(companyName: Option<string>, description: Option<string>)

  datatype FreelancerProfile = FreelancerProfile(headline: string, description: string, categoryId: string, skills: seq<string>)

  /** The body of a service-request post. */
  datatype RequestInput = RequestInput(
    title: string, description: string, categoryId: string, skillsRequired: seq<string>,
    budgetMin: real, budgetMax: real, deadlineDays: real)

  datatype ServiceRequest = ServiceRequest(
    id: string, clientId: string,
    title: string, description: string, enhancedDescription: string, categoryId: string,
    skillsRequired: seq<string>, budgetMin: real, budgetMax: real, deadlineDays: real,
    status: RequestStatus, createdAt: int, expiresAt: int)

  /** The body of a bid post. The route checks none of these fields. */
  datatype BidInput = BidInput(serviceRequestId: string, amount: real, deliveryTimeDays: real, proposal: string)

  datatype Bid = Bid(
    id: string, serviceRequestId: string, amount: real, deliveryTimeDays: real, proposal: string,
    freelancerId: string, createdAt: int, status: BidStatus)

  datatype Message = Message(id: string, content: string, senderId: string, receiverId: string, createdAt: int, read: bool)

  /** How long a new service request stays advertised: 7 days in milliseconds. */
  const WeekMs: int := 7 * 24 * 60 * 60 * 1000

  /** `UserSchema`: the e-mail check of the validation library is the parameter `isEmail`. */
  predicate ValidUserData(email: string, fullName: string, password: string, userType: string, isEmail: string -> bool) {
    isEmail(email) && |fullName| >= 2 && |password| >= 8 && ParseRole(userType).Some?
  }

  /** `FreelancerProfileSchema`. */
  predicate ValidFreelancerProfile(p: FreelancerProfile) {
    |p.headline| >= 5 && |p.description| >= 20 && |p.skills| >= 1
  }

  /** `ServiceRequestSchema`. Nothing relates budgetMin to budgetMax. */
  predicate ValidRequestInput(input: RequestInput) {
    && |input.title| >= 5
    && |input.description| >= 20
    && |input.skillsRequired| >= 1
    && input.budgetMin > 0.0
    && input.budgetMax > 0.0
    && input.deadlineDays > 0.0
  }

  /** `parts.join(sep)`. */
  function Join(parts: seq<string>, sep: string): string {
    if parts == [] then ""
    else if |parts| == 1 then parts[0]
    else parts[0] + sep + Join(parts[1..], sep)
  }

  /** The simulated AI rewrite stored with every new service request. */
  function EnhancedDescription(description: string, skills: seq<string>): (r: string)
    ensures "Enhanced: " + description <= r
  {
    "Enhanced: " + description + "\n\nThis project requires expertise in " + Join(skills, ", ") + "."
  }

  /** The record the service-request route stores for a valid body. */
  function NewRequest(id: string, clientId: string, input: RequestInput, now: int): ServiceRequest {
    ServiceRequest(
      id, clientId,
      input.title, input.description, EnhancedDescription(input.description, input.skillsRequired), input.categoryId,
      input.skillsRequired, input.budgetMin, input.budgetMax, input.deadlineDays,
      Open, now, now + WeekMs)
  }

  /** The record the bid route stores. */
  function NewBid(id: string, freelancerId: string, input: BidInput, now: int): Bid {
    Bid(id, input.serviceRequestId, input.amount, input.deliveryTimeDays, input.proposal, freelancerId, now, Pending)
  }
}
