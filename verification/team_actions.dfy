/** `createTeam` of lib/actions/team.ts. */
module TeamActions {
  import opened Wrappers
  import opened Gateway

  datatype CreateTeamInput = CreateTeamInput(name: string, organizationId: string)

  const CreateTeamFailed := "Failed to create team"

  /** `createTeam`: session gate, one create request with the caller's name and
      organization id, then shaping of the reply (`Returns(None)` is `null`). */
  function CreateTeam(input: CreateTeamInput, session: SessionAnswer, reply: Answer<Option<Team>>): (run: Run<Team>)
    ensures !SignedIn(session) ==> run.calls == [GetSessionCall] && run.result.Failure?
    ensures session.Returns? && !SignedIn(session) ==> run.result == Failure(AuthRequired)
    ensures SignedIn(session) ==> run.calls == [GetSessionCall, CreateTeamCall(input.name, input.organizationId)]
    ensures run.result.Success? <==>
      SignedIn(session) && reply.Returns? && reply.value.Some? && reply.value.value.id != ""
    ensures run.result.Success? ==> run.result.data == reply.value.value
    ensures SignedIn(session) && reply.Returns? && !run.result.Success? ==>
      run.result == Failure(CreateTeamFailed)
    ensures SignedIn(session) && reply.Throws? ==>
      run.result == Failure(CaughtMessage(reply.thrown, CreateTeamFailed))
  {
    match session
    case Throws(t) => Run(Failure(CaughtMessage(t, CreateTeamFailed)), [GetSessionCall])
    case Returns(info) =>
      if info.None? || !info.value.active then
        Run(Failure(AuthRequired), [GetSessionCall])
      else
        var calls := [GetSessionCall, CreateTeamCall(input.name, input.organizationId)];
        match reply
        case Throws(t) => Run(Failure(CaughtMessage(t, CreateTeamFailed)), calls)
        case Returns(team) =>
          if team.None? || team.value.id == "" then
            // `throw new Error("Failed to create team")`, caught below it
            Run(Failure(CaughtMessage(Error(CreateTeamFailed), CreateTeamFailed)), calls)
          else
            Run(Success(team.value), calls)
  }
}
