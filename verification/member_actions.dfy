/** The member actions of lib/actions/member.ts. */
module MemberActions {
  import opened Wrappers
  import opened Validators
  import opened Gateway

  const InvitedStatus := "invited"
  const AddMemberFailed := "Failed to add member"
  const InviteMemberFailed := "Failed to invite member"
  const RemoveMemberFailed := "Failed to remove member"
  const UpdateMemberRoleFailed := "Failed to update member role"
  const GetMembersFailed := "Failed to get members"

  /** `OrganizationRole | OrganizationRole[]`. */
  datatype RoleArgument = OneRole(role: Role) | RoleList(roles: seq<Role>)

  /** `Array.isArray(role) ? role : [role]`. */
  function NormalizeRoles(arg: RoleArgument): (roles: seq<Role>)
    ensures arg.OneRole? ==> |roles| == 1 && roles[0] == arg.role
    ensures arg.RoleList? ==> roles == arg.roles
  {
    match arg
    case OneRole(r) => [r]
    case RoleList(rs) => rs
  }

  /** Sending one role and sending the one-element list of it are the same request,
      and normalizing is stable. */
  lemma NormalizeRolesAgree(r: Role, arg: RoleArgument)
    ensures NormalizeRoles(OneRole(r)) == NormalizeRoles(RoleList([r]))
    ensures NormalizeRoles(RoleList(NormalizeRoles(arg))) == NormalizeRoles(arg)
  {
  }

  datatype AddMemberInput = AddMemberInput(
    userId: string,
    organizationId: string,
    role: RoleArgument,
    teamId: Option<string>)

  /** `addMemberToOrganization`: session gate, then one add request with the roles
      as a list; the reply is returned as the member. */
  function AddMemberToOrganization(input: AddMemberInput, session: SessionAnswer,
                                   reply: Answer<MemberRecord>): (run: Run<MemberRecord>)
    ensures !SignedIn(session) ==> run.calls == [GetSessionCall] && run.result.Failure?
    ensures session.Returns? && !SignedIn(session) ==> run.result == Failure(AuthRequired)
    ensures SignedIn(session) ==>
      run.calls == [GetSessionCall, AddMemberCall(input.userId, NormalizeRoles(input.role), input.organizationId, input.teamId)]
    ensures run.result.Success? <==> SignedIn(session) && reply.Returns?
    ensures run.result.Success? ==> run.result.data == reply.value
    ensures SignedIn(session) && reply.Throws? ==>
      run.result == Failure(CaughtMessage(reply.thrown, AddMemberFailed))
  {
    match session
    case Throws(t) => Run(Failure(CaughtMessage(t, AddMemberFailed)), [GetSessionCall])
    case Returns(info) =>
      if info.None? || !info.value.active then
        Run(Failure(AuthRequired), [GetSessionCall])
      else
        var calls := [GetSessionCall, AddMemberCall(input.userId, NormalizeRoles(input.role), input.organizationId, input.teamId)];
        match reply
        case Throws(t) => Run(Failure(CaughtMessage(t, AddMemberFailed)), calls)
        case Returns(m) => Run(Success(m), calls)
  }

  datatype InviteMemberInput = InviteMemberInput(
    email: string,
    organizationId: string,
    role: Role,
    teamId: Option<string>)

  /** The invitation record the invite action returns. */
  datatype Invitation = Invitation(
    email: string,
    role: Role,
    status: string,
    organizationId: string,
    teamId: Option<string>)

  /** The invitation that echoes an invite request. */
  function InvitationFor(input: InviteMemberInput): Invitation {
    Invitation(input.email, input.role, InvitedStatus, input.organizationId, input.teamId)
  }

  /** `inviteMemberToOrganization`: only the session lookup reaches the identity
      service; with a session the invitation is always granted, echoing the input
      with status InvitedStatus. */
  function InviteMemberToOrganization(input: InviteMemberInput, session: SessionAnswer): (run: Run<Invitation>)
    ensures run.calls == [GetSessionCall]
    ensures forall c :: c in run.calls ==> !IsWrite(c)
    ensures run.result.Success? <==> SignedIn(session)
    ensures run.result.Success? ==>
      && run.result.data.email == input.email
      && run.result.data.role == input.role
      && run.result.data.status == InvitedStatus
      && run.result.data.organizationId == input.organizationId
      && run.result.data.teamId == input.teamId
    ensures session.Returns? && !SignedIn(session) ==> run.result == Failure(AuthRequired)
  {
    match session
    case Throws(t) => Run(Failure(CaughtMessage(t, InviteMemberFailed)), [GetSessionCall])
    case Returns(info) =>
      if info.None? || !info.value.active then
        Run(Failure(AuthRequired), [GetSessionCall])
      else
        Run(Success(InvitationFor(input)), [GetSessionCall])
  }

  /** `removeMemberFromOrganization`: no session check; one remove request. */
  function RemoveMemberFromOrganization(memberIdOrEmail: string, organizationId: string,
                                        reply: Answer<()>): (run: Run<()>)
    ensures run.calls == [RemoveMemberCall(memberIdOrEmail, organizationId)]
    ensures run.result.Success? <==> reply.Returns?
    ensures reply.Throws? ==> run.result == Failure(CaughtMessage(reply.thrown, RemoveMemberFailed))
  {
    var calls := [RemoveMemberCall(memberIdOrEmail, organizationId)];
    match reply
    case Throws(t) => Run(Failure(CaughtMessage(t, RemoveMemberFailed)), calls)
    case Returns(_) => Run(Success(()), calls)
  }

  /** `updateMemberRole`: no session check; the user id is sent as the member id and
      the roles as a list. */
  function UpdateMemberRole(userId: string, organizationId: string, role: RoleArgument,
                            reply: Answer<MemberRecord>): (run: Run<MemberRecord>)
    ensures run.calls == [UpdateMemberRoleCall(userId, organizationId, NormalizeRoles(role))]
    ensures run.result.Success? <==> reply.Returns?
    ensures run.result.Success? ==> run.result.data == reply.value
    ensures reply.Throws? ==> run.result == Failure(CaughtMessage(reply.thrown, UpdateMemberRoleFailed))
  {
    var calls := [UpdateMemberRoleCall(userId, organizationId, NormalizeRoles(role))];
    match reply
    case Throws(t) => Run(Failure(CaughtMessage(t, UpdateMemberRoleFailed)), calls)
    case Returns(m) => Run(Success(m), calls)
  }

  /** `getOrganizationMembers`: no session check; a reply without members reads as
      the empty list. `Returns(None)` stands for a `null` reply or one without `members`. */
  function GetOrganizationMembers(organizationId: string,
                                  reply: Answer<Option<seq<MemberRecord>>>): (run: Run<seq<MemberRecord>>)
    ensures run.calls == [ListMembersCall(organizationId)]
    ensures run.result.Success? <==> reply.Returns?
    ensures reply == Returns(None) ==> run.result == Success([])
    ensures reply.Returns? && reply.value.Some? ==> run.result == Success(reply.value.value)
    ensures reply.Throws? ==> run.result == Failure(CaughtMessage(reply.thrown, GetMembersFailed))
  {
    var calls := [ListMembersCall(organizationId)];
    match reply
    case Throws(t) => Run(Failure(CaughtMessage(t, GetMembersFailed)), calls)
    case Returns(members) => Run(Success(members.GetOr([])), calls)
  }
}
