/** `setupOrganization` of lib/actions/organization-setup.ts: validate, then create
    the user, the organization and the team, then invite every member. Every
    external answer is part of the `SetupWorld`; the run reports the result, the
    steps attempted and every request sent to the identity service. */
module Setup {
  import opened Wrappers
  import opened Validators
  import opened Gateway
  import opened Passwords
  import opened UserActions
  import opened OrganizationActions
  import opened TeamActions
  import opened MemberActions

  /** One action the orchestrator invoked, with the request it passed. */
  datatype Step =
    | CreateUserStep(user: CreateUserInput)
    | CreateOrganizationStep(organization: CreateOrganizationInput)
    | CreateTeamStep(team: CreateTeamInput)
    | InviteStep(invite: InviteMemberInput)

  /** The answers of the outside world for one request, in the order they are asked:
      the random bytes, sign-up, the session lookup and create call of the
      organization action, those of the team action, and one session lookup per invite. */
  datatype SetupWorld = SetupWorld(
    passwordBytes: seq<byte>,
    signUp: Answer<Option<SignUpReply>>,
    organizationSession: SessionAnswer,
    createOrganization: Answer<Option<Organization>>,
    teamSession: SessionAnswer,
    createTeam: Answer<Option<Team>>,
    inviteSessions: seq<SessionAnswer>)

  /** `randomBytes(16)` yields 16 bytes, and every invite gets a session answer. */
  predicate WorldFits(input: SetupInput, w: SetupWorld) {
    |w.passwordBytes| == PasswordLength && |w.inviteSessions| == |input.members|
  }

  datatype SetupData = SetupData(user: User, organization: Organization, team: Team, invitations: seq<Invitation>)

  /** `{ ok: true; data } | { ok: false; error }`. */
  datatype SetupResult = SetupOk(data: SetupData) | SetupFailed(error: string)

  datatype SetupRun = SetupRun(result: SetupResult, steps: seq<Step>, calls: seq<GatewayCall>)

  datatype InviteLoop = InviteLoop(invitations: seq<Invitation>, steps: seq<Step>, calls: seq<GatewayCall>)

  /** The user request of step 1: the validated name and email and a fresh password. */
  function UserRequest(input: SetupInput, w: SetupWorld): CreateUserInput
    requires |w.passwordBytes| == PasswordLength
  {
    CreateUserInput(input.user.name, input.user.email, PasswordFrom(w.passwordBytes), None, None)
  }

  /** The organization request of step 2: the validated name and slug, unchanged. */
  function OrganizationRequest(input: SetupInput): CreateOrganizationInput {
    CreateOrganizationInput(input.organization.name, input.organization.slug)
  }

  function InviteRequest(m: MemberFields, organizationId: string, teamId: string): InviteMemberInput
    requires ParseRole(m.role).Some?
  {
    InviteMemberInput(m.email, organizationId, ParseRole(m.role).value, Some(teamId))
  }

  predicate RolesParse(ms: seq<MemberFields>) {
    forall i :: 0 <= i < |ms| ==> ParseRole(ms[i].role).Some?
  }

  /** The invitation every member would get if every invite succeeded. */
  function AllInvitations(ms: seq<MemberFields>, organizationId: string, teamId: string): (r: seq<Invitation>)
    requires RolesParse(ms)
    ensures |r| == |ms|
  {
    seq(|ms|, i requires 0 <= i < |ms| => InvitationFor(InviteRequest(ms[i], organizationId, teamId)))
  }

  /** `xs` can be obtained from `ys` by deleting entries. */
  predicate SubsequenceOf<T(==)>(xs: seq<T>, ys: seq<T>)
    decreases |ys|
  {
    if ys == [] then xs == []
    else (xs != [] && xs[0] == ys[0] && SubsequenceOf(xs[1..], ys[1..])) || SubsequenceOf(xs, ys[1..])
  }

  function CountSignedIn(sessions: seq<SessionAnswer>): (n: nat)
    ensures n <= |sessions|
  {
    if sessions == [] then 0 else (if SignedIn(sessions[0]) then 1 else 0) + CountSignedIn(sessions[1..])
  }

  /** The entries of `all` whose session answer is a signed-in one, in order. */
  function Granted<T>(all: seq<T>, sessions: seq<SessionAnswer>): (r: seq<T>)
    requires |all| == |sessions|
    ensures |r| == CountSignedIn(sessions)
    decreases |all|
  {
    if all == [] then [] else (if SignedIn(sessions[0]) then [all[0]] else []) + Granted(all[1..], sessions[1..])
  }

  /** The invite loop: members in input order, one invite each; a failed invite is
      only logged and the loop goes on. */
  function InviteAll(ms: seq<MemberFields>, sessions: seq<SessionAnswer>,
                     organizationId: string, teamId: string): (out: InviteLoop)
    requires |sessions| == |ms| && RolesParse(ms)
    ensures |out.steps| == |ms|
    ensures forall i :: 0 <= i < |ms| ==> out.steps[i] == InviteStep(InviteRequest(ms[i], organizationId, teamId))
    ensures |out.calls| == |ms| && forall i :: 0 <= i < |out.calls| ==> out.calls[i] == GetSessionCall
    decreases |ms|
  {
    if ms == [] then InviteLoop([], [], [])
    else
      var request := InviteRequest(ms[0], organizationId, teamId);
      var invite := InviteMemberToOrganization(request, sessions[0]);
      assert RolesParse(ms[1..]) by {
        forall i | 0 <= i < |ms| - 1 ensures ParseRole(ms[1..][i].role).Some? { assert ms[1..][i] == ms[i + 1]; }
      }
      var rest := InviteAll(ms[1..], sessions[1..], organizationId, teamId);
      var invitations := (if invite.result.Success? then [invite.result.data] else []) + rest.invitations;
      InviteLoop(invitations, [InviteStep(request)] + rest.steps, invite.calls + rest.calls)
  }

  /** The invitations the loop reports: one per member whose invite found a session,
      in member order, and all of them when every invite found one. */
  lemma {:induction false} InviteAllInvitations(ms: seq<MemberFields>, sessions: seq<SessionAnswer>,
                                                organizationId: string, teamId: string)
    requires |sessions| == |ms| && RolesParse(ms)
    ensures var out := InviteAll(ms, sessions, organizationId, teamId);
      && out.invitations == Granted(AllInvitations(ms, organizationId, teamId), sessions)
      && |out.invitations| == CountSignedIn(sessions)
      && SubsequenceOf(out.invitations, AllInvitations(ms, organizationId, teamId))
      && ((forall i :: 0 <= i < |sessions| ==> SignedIn(sessions[i])) ==>
            out.invitations == AllInvitations(ms, organizationId, teamId))
    decreases |ms|
  {
    if ms != [] {
      var request := InviteRequest(ms[0], organizationId, teamId);
      var invite := InviteMemberToOrganization(request, sessions[0]);
      AllInvitationsCons(ms, organizationId, teamId);
      InviteAllInvitations(ms[1..], sessions[1..], organizationId, teamId);
      var rest := InviteAll(ms[1..], sessions[1..], organizationId, teamId);
      SubsequenceStep(InvitationFor(request), rest.invitations,
                      AllInvitations(ms, organizationId, teamId), invite.result.Success?);
      if forall i :: 0 <= i < |sessions| ==> SignedIn(sessions[i]) {
        assert SignedIn(sessions[0]);
        assert forall i :: 0 <= i < |sessions| - 1 ==> SignedIn(sessions[1..][i]) by {
          forall i | 0 <= i < |sessions| - 1 ensures SignedIn(sessions[1..][i]) { assert sessions[1..][i] == sessions[i + 1]; }
        }
      }
    }
  }

  lemma AllInvitationsCons(ms: seq<MemberFields>, organizationId: string, teamId: string)
    requires RolesParse(ms) && ms != []
    ensures RolesParse(ms[1..])
    ensures var all := AllInvitations(ms, organizationId, teamId);
      && all[0] == InvitationFor(InviteRequest(ms[0], organizationId, teamId))
      && all[1..] == AllInvitations(ms[1..], organizationId, teamId)
      && all == [all[0]] + all[1..]
  {
    var all := AllInvitations(ms, organizationId, teamId);
    assert all == [all[0]] + all[1..];
  }

  lemma PrependOne<T>(a: T, b: T, xs: seq<T>)
    ensures [a] + ([b] + xs) == [a, b] + xs
  {
    assert [a] + [b] == [a, b];
  }

  lemma PrependTwo<T>(a: T, b: T, c: T, xs: seq<T>)
    ensures [a, b] + ([c] + xs) == [a, b, c] + xs
  {
    assert [a, b] + [c] == [a, b, c];
  }

  /** Keeping or skipping the head of `ys` extends a subsequence of its tail. */
  lemma SubsequenceStep<T>(x: T, xs: seq<T>, ys: seq<T>, keep: bool)
    requires ys != [] && SubsequenceOf(xs, ys[1..]) && (keep ==> x == ys[0])
    ensures SubsequenceOf((if keep then [x] else []) + xs, ys)
  {
    if keep {
      assert ([x] + xs)[1..] == xs;
    } else {
      assert [] + xs == xs;
    }
  }

  /** The order the orchestrator attempts its steps in. */
  predicate StepsInOrder(steps: seq<Step>) {
    && (|steps| > 0 ==> steps[0].CreateUserStep?)
    && (|steps| > 1 ==> steps[1].CreateOrganizationStep?)
    && (|steps| > 2 ==> steps[2].CreateTeamStep?)
    && (forall i :: 3 <= i < |steps| ==> steps[i].InviteStep?)
  }

  /** No request undoes an earlier creation or adds a member: nothing is rolled
      back, and invitations never reach the identity service as writes. */
  predicate NoUndo(calls: seq<GatewayCall>) {
    forall i :: 0 <= i < |calls| ==> !IsUndo(calls[i]) && !calls[i].AddMemberCall?
  }

  lemma NoUndoConcat(a: seq<GatewayCall>, b: seq<GatewayCall>)
    requires NoUndo(a) && NoUndo(b)
    ensures NoUndo(a + b)
  {
    forall i | 0 <= i < |a + b|
      ensures !IsUndo((a + b)[i]) && !(a + b)[i].AddMemberCall?
    {
      if i >= |a| { assert (a + b)[i] == b[i - |a|]; }
    }
  }

  /** A step that succeeded, followed by the rest of the run. */
  function Then(step: Step, calls: seq<GatewayCall>, rest: SetupRun): (run: SetupRun)
    requires NoUndo(calls) && NoUndo(rest.calls)
    ensures run.result == rest.result
    ensures |run.steps| == |rest.steps| + 1 && run.steps[0] == step
    ensures forall i :: 0 <= i < |rest.steps| ==> run.steps[i + 1] == rest.steps[i]
    ensures NoUndo(run.calls)
  {
    NoUndoConcat(calls, rest.calls);
    SetupRun(rest.result, [step] + rest.steps, calls + rest.calls)
  }

  /** Steps 3 and 4, once the user and the organization exist: create the team in
      the new organization, then invite every member into both. */
  function FromTeamStep(input: SetupInput, w: SetupWorld, user: User, org: Organization): (run: SetupRun)
    requires |w.inviteSessions| == |input.members| && RolesParse(input.members) && |input.members| >= 1
    ensures |run.steps| >= 1 && run.steps[0] == CreateTeamStep(CreateTeamInput(input.team.name, org.id))
    ensures run.result.SetupOk? <==> |run.steps| > 1
    ensures |run.steps| <= 1 + |input.members|
    ensures NoUndo(run.calls)
  {
    var request := CreateTeamInput(input.team.name, org.id);
    var team := CreateTeam(request, w.teamSession, w.createTeam);
    assert NoUndo(team.calls);
    if team.result.Failure? then
      SetupRun(SetupFailed(team.result.error), [CreateTeamStep(request)], team.calls)
    else
      var invites := InviteAll(input.members, w.inviteSessions, org.id, team.result.data.id);
      assert NoUndo(invites.calls);
      Then(CreateTeamStep(request), team.calls,
           SetupRun(SetupOk(SetupData(user, org, team.result.data, invites.invitations)), invites.steps, invites.calls))
  }

  /** Steps 2 to 4, once the user exists: create the organization with the validated
      name and slug, then go on with it. */
  function FromOrganizationStep(input: SetupInput, w: SetupWorld, user: User): (run: SetupRun)
    requires |w.inviteSessions| == |input.members| && RolesParse(input.members) && |input.members| >= 1
    ensures |run.steps| >= 1 && run.steps[0] == CreateOrganizationStep(OrganizationRequest(input))
    ensures run.result.SetupOk? <==> |run.steps| > 2
    ensures |run.steps| <= 2 + |input.members|
    ensures NoUndo(run.calls)
  {
    var org := CreateOrganization(OrganizationRequest(input), w.organizationSession, w.createOrganization);
    assert NoUndo(org.calls);
    if org.result.Failure? then
      SetupRun(SetupFailed(org.result.error), [CreateOrganizationStep(OrganizationRequest(input))], org.calls)
    else
      Then(CreateOrganizationStep(OrganizationRequest(input)), org.calls, FromTeamStep(input, w, user, org.result.data))
  }

  /** Steps 1 to 4 on a validated input: create the user with a generated password,
      then go on. */
  function FromUserStep(input: SetupInput, w: SetupWorld, isEmail: string -> bool, isUrl: string -> bool): (run: SetupRun)
    requires WorldFits(input, w) && ValidSetupInput(input, isEmail)
    ensures |run.steps| >= 1 && run.steps[0] == CreateUserStep(UserRequest(input, w))
    ensures run.result.SetupOk? <==> |run.steps| > 3
    ensures |run.steps| <= 3 + |input.members|
    ensures NoUndo(run.calls)
  {
    var user := CreateUser(UserRequest(input, w), isEmail, isUrl, w.signUp);
    assert NoUndo(user.calls);
    ValidRolesParse(input.members, isEmail);
    if user.result.Failure? then
      SetupRun(SetupFailed(user.result.error), [CreateUserStep(UserRequest(input, w))], user.calls)
    else
      Then(CreateUserStep(UserRequest(input, w)), user.calls, FromOrganizationStep(input, w, user.result.data))
  }

  lemma ValidRolesParse(ms: seq<MemberFields>, isEmail: string -> bool)
    requires ValidMembers(ms, isEmail)
    ensures RolesParse(ms)
  {
    forall i | 0 <= i < |ms| ensures ParseRole(ms[i].role).Some? {
      assert ValidMember(ms[i], isEmail);
    }
  }

  /** `setupOrganization`. `render` is zod's serialization of a failed parse into the
      error's message. */
  function SetupOrganization(input: SetupInput, w: SetupWorld,
                             isEmail: string -> bool, isUrl: string -> bool,
                             render: seq<Issue> -> string): (run: SetupRun)
    requires WorldFits(input, w)
    ensures run.steps == [] <==> !ValidSetupInput(input, isEmail)
    ensures !ValidSetupInput(input, isEmail) ==>
      run.result == SetupFailed(render(SetupIssues(input, isEmail))) && run.calls == []
    ensures ValidSetupInput(input, isEmail) ==> run == FromUserStep(input, w, isEmail, isUrl)
    ensures run.result.SetupOk? <==> |run.steps| > 3
  {
    if !ValidSetupInput(input, isEmail) then
      // `organizationSetupSchema.parse` throws a ZodError, caught by the outer handler
      SetupRun(SetupFailed(render(SetupIssues(input, isEmail))), [], [])
    else
      FromUserStep(input, w, isEmail, isUrl)
  }

  // ----- what the orchestrator promises -----

  lemma TeamStageOutcome(input: SetupInput, w: SetupWorld, user: User, org: Organization)
    requires |w.inviteSessions| == |input.members| && RolesParse(input.members) && |input.members| >= 1
    ensures var request := CreateTeamInput(input.team.name, org.id);
      var team := CreateTeam(request, w.teamSession, w.createTeam);
      var run := FromTeamStep(input, w, user, org);
      && (team.result.Failure? ==>
            run.result == SetupFailed(team.result.error) && run.steps == [CreateTeamStep(request)])
      && (team.result.Success? ==>
            var invites := InviteAll(input.members, w.inviteSessions, org.id, team.result.data.id);
            && run.result == SetupOk(SetupData(user, org, team.result.data, invites.invitations))
            && run.steps == [CreateTeamStep(request)] + invites.steps)
  {
  }

  lemma OrganizationStageOutcome(input: SetupInput, w: SetupWorld, user: User)
    requires |w.inviteSessions| == |input.members| && RolesParse(input.members) && |input.members| >= 1
    ensures var org := CreateOrganization(OrganizationRequest(input), w.organizationSession, w.createOrganization);
      var run := FromOrganizationStep(input, w, user);
      && (org.result.Failure? ==>
            run.result == SetupFailed(org.result.error) && run.steps == [CreateOrganizationStep(OrganizationRequest(input))])
      && (org.result.Success? ==>
            var rest := FromTeamStep(input, w, user, org.result.data);
            run.result == rest.result && run.steps == [CreateOrganizationStep(OrganizationRequest(input))] + rest.steps)
  {
  }

  lemma UserStageOutcome(input: SetupInput, w: SetupWorld, isEmail: string -> bool, isUrl: string -> bool)
    requires WorldFits(input, w) && ValidSetupInput(input, isEmail)
    ensures RolesParse(input.members)
    ensures var user := CreateUser(UserRequest(input, w), isEmail, isUrl, w.signUp);
      var run := FromUserStep(input, w, isEmail, isUrl);
      && (user.result.Failure? ==>
            run.result == SetupFailed(user.result.error) && run.steps == [CreateUserStep(UserRequest(input, w))])
      && (user.result.Success? ==>
            var rest := FromOrganizationStep(input, w, user.result.data);
            run.result == rest.result && run.steps == [CreateUserStep(UserRequest(input, w))] + rest.steps)
  {
    ValidRolesParse(input.members, isEmail);
  }

  /** Step 1 failing ends the run with its error; nothing else is attempted. */
  lemma SetupStopsAtUser(input: SetupInput, w: SetupWorld, isEmail: string -> bool, isUrl: string -> bool,
                         render: seq<Issue> -> string)
    requires WorldFits(input, w) && ValidSetupInput(input, isEmail)
    requires CreateUser(UserRequest(input, w), isEmail, isUrl, w.signUp).result.Failure?
    ensures var run := SetupOrganization(input, w, isEmail, isUrl, render);
      && run.result == SetupFailed(CreateUser(UserRequest(input, w), isEmail, isUrl, w.signUp).result.error)
      && run.steps == [CreateUserStep(UserRequest(input, w))]
  {
    UserStageOutcome(input, w, isEmail, isUrl);
  }

  /** Step 2 failing ends the run with its error; no team is created. */
  lemma SetupStopsAtOrganization(input: SetupInput, w: SetupWorld, isEmail: string -> bool, isUrl: string -> bool,
                                 render: seq<Issue> -> string)
    requires WorldFits(input, w) && ValidSetupInput(input, isEmail)
    requires CreateUser(UserRequest(input, w), isEmail, isUrl, w.signUp).result.Success?
    requires CreateOrganization(OrganizationRequest(input), w.organizationSession, w.createOrganization).result.Failure?
    ensures var run := SetupOrganization(input, w, isEmail, isUrl, render);
      && run.result == SetupFailed(
           CreateOrganization(OrganizationRequest(input), w.organizationSession, w.createOrganization).result.error)
      && run.steps == [CreateUserStep(UserRequest(input, w)), CreateOrganizationStep(OrganizationRequest(input))]
  {
    UserStageOutcome(input, w, isEmail, isUrl);
    OrganizationStageOutcome(input, w, CreateUser(UserRequest(input, w), isEmail, isUrl, w.signUp).result.data);
  }

  /** Once the user and the organization exist, the rest of the run is the team step
      and what follows it. */
  lemma SetupReachesTeam(input: SetupInput, w: SetupWorld, isEmail: string -> bool, isUrl: string -> bool,
                         render: seq<Issue> -> string)
    requires WorldFits(input, w) && ValidSetupInput(input, isEmail)
    requires CreateUser(UserRequest(input, w), isEmail, isUrl, w.signUp).result.Success?
    requires CreateOrganization(OrganizationRequest(input), w.organizationSession, w.createOrganization).result.Success?
    ensures RolesParse(input.members)
    ensures var run := SetupOrganization(input, w, isEmail, isUrl, render);
      var user := CreateUser(UserRequest(input, w), isEmail, isUrl, w.signUp).result.data;
      var org := CreateOrganization(OrganizationRequest(input), w.organizationSession, w.createOrganization).result.data;
      var rest := FromTeamStep(input, w, user, org);
      && run.result == rest.result
      && run.steps == [CreateUserStep(UserRequest(input, w)), CreateOrganizationStep(OrganizationRequest(input))] + rest.steps
  {
    UserStageOutcome(input, w, isEmail, isUrl);
    var user := CreateUser(UserRequest(input, w), isEmail, isUrl, w.signUp).result.data;
    OrganizationStageOutcome(input, w, user);
    var org := CreateOrganization(OrganizationRequest(input), w.organizationSession, w.createOrganization).result.data;
    PrependOne(CreateUserStep(UserRequest(input, w)), CreateOrganizationStep(OrganizationRequest(input)),
               FromTeamStep(input, w, user, org).steps);
  }

  /** Step 3 failing ends the run with its error; nobody is invited. */
  lemma SetupStopsAtTeam(input: SetupInput, w: SetupWorld, isEmail: string -> bool, isUrl: string -> bool,
                         render: seq<Issue> -> string)
    requires WorldFits(input, w) && ValidSetupInput(input, isEmail)
    requires CreateUser(UserRequest(input, w), isEmail, isUrl, w.signUp).result.Success?
    requires CreateOrganization(OrganizationRequest(input), w.organizationSession, w.createOrganization).result.Success?
    requires var org := CreateOrganization(OrganizationRequest(input), w.organizationSession, w.createOrganization).result.data;
      CreateTeam(CreateTeamInput(input.team.name, org.id), w.teamSession, w.createTeam).result.Failure?
    ensures var run := SetupOrganization(input, w, isEmail, isUrl, render);
      var org := CreateOrganization(OrganizationRequest(input), w.organizationSession, w.createOrganization).result.data;
      var teamRequest := CreateTeamInput(input.team.name, org.id);
      && run.result == SetupFailed(CreateTeam(teamRequest, w.teamSession, w.createTeam).result.error)
      && run.steps == [CreateUserStep(UserRequest(input, w)), CreateOrganizationStep(OrganizationRequest(input)),
                       CreateTeamStep(teamRequest)]
  {
    SetupReachesTeam(input, w, isEmail, isUrl, render);
    var user := CreateUser(UserRequest(input, w), isEmail, isUrl, w.signUp).result.data;
    var org := CreateOrganization(OrganizationRequest(input), w.organizationSession, w.createOrganization).result.data;
    TeamStageOutcome(input, w, user, org);
  }

  /** Once the team exists the run succeeds, whatever the invites do: it reports the
      three records and the invitations that went through, after one invite step per
      member. */
  lemma SetupCompletes(input: SetupInput, w: SetupWorld, isEmail: string -> bool, isUrl: string -> bool,
                       render: seq<Issue> -> string)
    requires WorldFits(input, w) && ValidSetupInput(input, isEmail)
    requires CreateUser(UserRequest(input, w), isEmail, isUrl, w.signUp).result.Success?
    requires CreateOrganization(OrganizationRequest(input), w.organizationSession, w.createOrganization).result.Success?
    requires var org := CreateOrganization(OrganizationRequest(input), w.organizationSession, w.createOrganization).result.data;
      CreateTeam(CreateTeamInput(input.team.name, org.id), w.teamSession, w.createTeam).result.Success?
    ensures RolesParse(input.members)
    ensures var run := SetupOrganization(input, w, isEmail, isUrl, render);
      var user := CreateUser(UserRequest(input, w), isEmail, isUrl, w.signUp).result.data;
      var org := CreateOrganization(OrganizationRequest(input), w.organizationSession, w.createOrganization).result.data;
      var teamRequest := CreateTeamInput(input.team.name, org.id);
      var team := CreateTeam(teamRequest, w.teamSession, w.createTeam).result.data;
      var invites := InviteAll(input.members, w.inviteSessions, org.id, team.id);
      && run.result == SetupOk(SetupData(user, org, team, invites.invitations))
      && run.steps == [CreateUserStep(UserRequest(input, w)), CreateOrganizationStep(OrganizationRequest(input)),
                       CreateTeamStep(teamRequest)] + invites.steps
  {
    SetupReachesTeam(input, w, isEmail, isUrl, render);
    var user := CreateUser(UserRequest(input, w), isEmail, isUrl, w.signUp).result.data;
    var org := CreateOrganization(OrganizationRequest(input), w.organizationSession, w.createOrganization).result.data;
    TeamStageOutcome(input, w, user, org);
    var teamRequest := CreateTeamInput(input.team.name, org.id);
    var team := CreateTeam(teamRequest, w.teamSession, w.createTeam).result.data;
    var invites := InviteAll(input.members, w.inviteSessions, org.id, team.id);
    PrependTwo(CreateUserStep(UserRequest(input, w)), CreateOrganizationStep(OrganizationRequest(input)),
               CreateTeamStep(teamRequest), invites.steps);
  }

  /** Whatever the world answers, there is at most one step per stage and member,
      and no request undoes an earlier creation or adds a member. */
  lemma SetupNeverUndoes(input: SetupInput, w: SetupWorld, isEmail: string -> bool, isUrl: string -> bool,
                         render: seq<Issue> -> string)
    requires WorldFits(input, w)
    ensures var run := SetupOrganization(input, w, isEmail, isUrl, render);
      |run.steps| <= 3 + |input.members| && NoUndo(run.calls)
  {
    if ValidSetupInput(input, isEmail) {
      var _ := FromUserStep(input, w, isEmail, isUrl);
    }
  }

  /** Whatever the world answers, the steps follow the order user, organization,
      team, invites. */
  lemma SetupStepsInOrder(input: SetupInput, w: SetupWorld, isEmail: string -> bool, isUrl: string -> bool,
                          render: seq<Issue> -> string)
    requires WorldFits(input, w)
    ensures StepsInOrder(SetupOrganization(input, w, isEmail, isUrl, render).steps)
  {
    if ValidSetupInput(input, isEmail) {
      SetupStepRequests(input, w, isEmail, isUrl, render);
      var steps := SetupOrganization(input, w, isEmail, isUrl, render).steps;
      forall i | 3 <= i < |steps| ensures steps[i].InviteStep? {
      }
    }
  }

  /** The requests the steps carry: the user gets the validated name and email and
      a password that passes `createUser`'s own checks, the organization gets the
      validated name and slug, the team is created in the organization just made,
      and member `i` is invited, with its parsed role, into that organization and team. */
  lemma SetupStepRequests(input: SetupInput, w: SetupWorld, isEmail: string -> bool, isUrl: string -> bool,
                          render: seq<Issue> -> string)
    requires WorldFits(input, w) && ValidSetupInput(input, isEmail)
    ensures RolesParse(input.members)
    ensures var run := SetupOrganization(input, w, isEmail, isUrl, render);
      var org := CreateOrganization(OrganizationRequest(input), w.organizationSession, w.createOrganization);
      && run.steps[0].CreateUserStep?
      && run.steps[0].user.name == input.user.name && run.steps[0].user.email == input.user.email
      && CreateUserInputValid(run.steps[0].user, isEmail, isUrl)
      && (|run.steps| > 1 ==>
            run.steps[1] == CreateOrganizationStep(CreateOrganizationInput(input.organization.name, input.organization.slug)))
      && (|run.steps| > 2 ==>
            org.result.Success? && run.steps[2] == CreateTeamStep(CreateTeamInput(input.team.name, org.result.data.id)))
      && (|run.steps| > 3 ==>
            var teamId := CreateTeam(CreateTeamInput(input.team.name, org.result.data.id), w.teamSession, w.createTeam).result.data.id;
            forall i :: 3 <= i < |run.steps| ==>
              run.steps[i] == InviteStep(InviteRequest(input.members[i - 3], org.result.data.id, teamId)))
  {
    ValidRolesParse(input.members, isEmail);
    UserStepPassesValidation(input, w, isEmail, isUrl);
    var run := SetupOrganization(input, w, isEmail, isUrl, render);
    var user := CreateUser(UserRequest(input, w), isEmail, isUrl, w.signUp);
    var org := CreateOrganization(OrganizationRequest(input), w.organizationSession, w.createOrganization);
    if user.result.Failure? {
      SetupStopsAtUser(input, w, isEmail, isUrl, render);
    } else if org.result.Failure? {
      SetupStopsAtOrganization(input, w, isEmail, isUrl, render);
    } else {
      var team := CreateTeam(CreateTeamInput(input.team.name, org.result.data.id), w.teamSession, w.createTeam);
      if team.result.Failure? {
        SetupStopsAtTeam(input, w, isEmail, isUrl, render);
      } else {
        SetupCompletes(input, w, isEmail, isUrl, render);
        var invites := InviteAll(input.members, w.inviteSessions, org.result.data.id, team.result.data.id);
        forall i | 3 <= i < |run.steps|
          ensures run.steps[i] == InviteStep(InviteRequest(input.members[i - 3], org.result.data.id, team.result.data.id))
        {
          assert run.steps[i] == invites.steps[i - 3];
        }
      }
    }
  }

  /** The generated password always satisfies `createUserSchema`, so on a valid setup
      input step 1 fails only when sign-up itself does not hand back a user. */
  lemma UserStepPassesValidation(input: SetupInput, w: SetupWorld, isEmail: string -> bool, isUrl: string -> bool)
    requires WorldFits(input, w) && ValidSetupInput(input, isEmail)
    ensures CreateUserInputValid(UserRequest(input, w), isEmail, isUrl)
    ensures CreateUser(UserRequest(input, w), isEmail, isUrl, w.signUp).result.Success? <==>
      w.signUp.Returns? && w.signUp.value.Some?
  {
    PasswordMeetsLengthRules(w.passwordBytes);
  }

  /** A setup succeeds exactly when the user, the organization and the team are all
      created; the invites cannot make it fail. */
  lemma SetupOkIffTeamCreated(input: SetupInput, w: SetupWorld, isEmail: string -> bool, isUrl: string -> bool,
                              render: seq<Issue> -> string)
    requires WorldFits(input, w) && ValidSetupInput(input, isEmail)
    ensures var run := SetupOrganization(input, w, isEmail, isUrl, render);
      var user := CreateUser(UserRequest(input, w), isEmail, isUrl, w.signUp);
      var org := CreateOrganization(OrganizationRequest(input), w.organizationSession, w.createOrganization);
      run.result.SetupOk? <==>
        && user.result.Success? && org.result.Success?
        && CreateTeam(CreateTeamInput(input.team.name, org.result.data.id), w.teamSession, w.createTeam).result.Success?
  {
    var user := CreateUser(UserRequest(input, w), isEmail, isUrl, w.signUp);
    var org := CreateOrganization(OrganizationRequest(input), w.organizationSession, w.createOrganization);
    if user.result.Failure? {
      SetupStopsAtUser(input, w, isEmail, isUrl, render);
    } else if org.result.Failure? {
      SetupStopsAtOrganization(input, w, isEmail, isUrl, render);
    } else {
      var team := CreateTeam(CreateTeamInput(input.team.name, org.result.data.id), w.teamSession, w.createTeam);
      if team.result.Failure? {
        SetupStopsAtTeam(input, w, isEmail, isUrl, render);
      } else {
        SetupCompletes(input, w, isEmail, isUrl, render);
      }
    }
  }

  /** What a successful run reports: the records the services returned, and one
      invitation per member whose invite found a session, in member order. */
  lemma SetupInvitations(input: SetupInput, w: SetupWorld, isEmail: string -> bool, isUrl: string -> bool,
                         render: seq<Issue> -> string)
    requires WorldFits(input, w) && ValidSetupInput(input, isEmail)
    ensures RolesParse(input.members)
    ensures var run := SetupOrganization(input, w, isEmail, isUrl, render);
      run.result.SetupOk? ==>
        var d := run.result.data;
        var all := AllInvitations(input.members, d.organization.id, d.team.id);
        && d.user == w.signUp.value.value.user.GetOr(w.signUp.value.value.asUser)
        && d.organization == w.createOrganization.value.value
        && d.team == w.createTeam.value.value
        && d.invitations == Granted(all, w.inviteSessions)
        && |d.invitations| == CountSignedIn(w.inviteSessions) <= |input.members|
        && SubsequenceOf(d.invitations, all)
        && ((forall i :: 0 <= i < |w.inviteSessions| ==> SignedIn(w.inviteSessions[i])) ==> d.invitations == all)
  {
    ValidRolesParse(input.members, isEmail);
    SetupOkIffTeamCreated(input, w, isEmail, isUrl, render);
    var user := CreateUser(UserRequest(input, w), isEmail, isUrl, w.signUp);
    var org := CreateOrganization(OrganizationRequest(input), w.organizationSession, w.createOrganization);
    if user.result.Success? && org.result.Success? &&
       CreateTeam(CreateTeamInput(input.team.name, org.result.data.id), w.teamSession, w.createTeam).result.Success? {
      SetupCompletes(input, w, isEmail, isUrl, render);
      var team := CreateTeam(CreateTeamInput(input.team.name, org.result.data.id), w.teamSession, w.createTeam);
      InviteAllInvitations(input.members, w.inviteSessions, org.result.data.id, team.result.data.id);
    }
  }

  /** When every invite sees the session that created the organization, a successful
      run invites every member. */
  lemma SameSessionInvitesEveryone(input: SetupInput, w: SetupWorld, isEmail: string -> bool, isUrl: string -> bool,
                                   render: seq<Issue> -> string)
    requires WorldFits(input, w) && ValidSetupInput(input, isEmail)
    requires forall i :: 0 <= i < |w.inviteSessions| ==> w.inviteSessions[i] == w.organizationSession
    ensures RolesParse(input.members)
    ensures var run := SetupOrganization(input, w, isEmail, isUrl, render);
      run.result.SetupOk? ==>
        var d := run.result.data;
        && d.invitations == AllInvitations(input.members, d.organization.id, d.team.id)
        && |d.invitations| == |input.members|
  {
    SetupInvitations(input, w, isEmail, isUrl, render);
    SetupOkIffTeamCreated(input, w, isEmail, isUrl, render);
  }
}
