/** The identity service (`auth.api.*`) as the actions see it: each call's answer is
    an input to the model, and each action reports the calls it issued. */
module Gateway {
  import opened Wrappers
  import opened Validators

  /** What a failed call throws: an `Error` carrying a message, or some other value. */
  datatype Thrown = Error(message: string) | NonError

  /** The outcome of one awaited call. */
  datatype Answer<+T> = Returns(value: T) | Throws(thrown: Thrown)

  /** The `catch` clause shared by every action:
      `error instanceof Error ? error.message : fallback`. */
  function CaughtMessage(t: Thrown, fallback: string): (m: string)
    ensures t.NonError? ==> m == fallback
    ensures t.Error? ==> m == t.message
  {
    match t
    case Error(msg) => msg
    case NonError => fallback
  }

  datatype User = User(id: string, name: string, email: string, image: Option<string>)

  /** An organization as the service returns it; an absent id is the empty string. */
  datatype Organization = Organization(id: string, name: string, slug: Option<string>)

  datatype Team = Team(id: string, name: string, organizationId: string)

  datatype MemberRecord = MemberRecord(
    id: string,
    userId: string,
    organizationId: string,
    role: Role,
    teamId: Option<string>,
    email: Option<string>,
    status: Option<string>)

  /** What `getSession` resolves to when it finds something; `None` is `null`. */
  datatype SessionInfo = SessionInfo(active: bool, user: Option<User>)

  type SessionAnswer = Answer<Option<SessionInfo>>

  /** The session gate `session?.session` holds. */
  predicate SignedIn(a: SessionAnswer) {
    a.Returns? && a.value.Some? && a.value.value.active
  }

  const AuthRequired := "Authentication required. Please sign in first."

  /** The body of `signUpEmail`; `rememberMe` is only sent by the admin endpoint. */
  datatype SignUpBody = SignUpBody(
    name: string,
    email: string,
    password: string,
    image: Option<string>,
    callbackURL: Option<string>,
    rememberMe: Option<bool>)

  /** One request made to the identity service. */
  datatype GatewayCall =
    | GetSessionCall
    | SignUpEmailCall(body: SignUpBody)
    | CreateOrganizationCall(name: string, slug: string)
    | CreateTeamCall(name: string, organizationId: string)
    | AddMemberCall(userId: string, roles: seq<Role>, organizationId: string, teamId: Option<string>)
    | RemoveMemberCall(memberIdOrEmail: string, organizationId: string)
    | UpdateMemberRoleCall(memberId: string, organizationId: string, roles: seq<Role>)
    | ListMembersCall(organizationId: string)

  /** A call that changes state at the identity service. */
  predicate IsWrite(c: GatewayCall) {
    !c.GetSessionCall? && !c.ListMembersCall?
  }

  /** A call that undoes an earlier creation. */
  predicate IsUndo(c: GatewayCall) {
    c.RemoveMemberCall?
  }

  /** An action's tagged result together with the requests it made, in order. */
  datatype Run<+T> = Run(result: ActionResult<T>, calls: seq<GatewayCall>)
}
