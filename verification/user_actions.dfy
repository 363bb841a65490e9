/** The user actions of lib/actions/user.ts. The email and URL checks of zod are
    the parameters `isEmail` and `isUrl`. */
module UserActions {
  import opened Wrappers
  import opened Validators
  import opened Gateway

  datatype CreateUserInput = CreateUserInput(
    name: string,
    email: string,
    password: string,
    image: Option<string>,
    callbackURL: Option<string>)

  /** What `signUpEmail` resolves to when it resolves to something truthy: an object
      that may carry a `user`, and that object itself read as a user. */
  datatype SignUpReply = SignUpReply(user: Option<User>, asUser: User)

  const NameRequired := "Name is required"
  const PasswordTooShort := "Password must be at least 8 characters"
  const InvalidImageUrl := "Please enter a valid image URL"
  const InvalidCallbackUrl := "Please enter a valid callback URL"
  const ValidationFailed := "Validation failed"
  const CreateUserFailed := "Failed to create user"
  const NoAuthenticatedUser := "No authenticated user found"
  const GetCurrentUserFailed := "Failed to get current user"

  /** `createUserSchema`, read declaratively. */
  predicate CreateUserInputValid(input: CreateUserInput, isEmail: string -> bool, isUrl: string -> bool) {
    && 1 <= |input.name| <= 100
    && isEmail(input.email)
    && |input.password| >= 8
    && (input.image.None? || isUrl(input.image.value))
    && (input.callbackURL.None? || isUrl(input.callbackURL.value))
  }

  /** `createUserSchema` as zod runs it: every failing check, field by field. */
  function CreateUserIssues(input: CreateUserInput, isEmail: string -> bool, isUrl: string -> bool): (r: seq<Issue>)
    ensures r == [] <==> CreateUserInputValid(input, isEmail, isUrl)
    ensures !(1 <= |input.name| <= 100) ==> r != [] && r[0].path == [Key("name")]
  {
    Check(|input.name| >= 1, [Key("name")], NameRequired)
    + Check(|input.name| <= 100, [Key("name")], UserNameTooLong)
    + Check(isEmail(input.email), [Key("email")], EmailMessage)
    + Check(|input.password| >= 8, [Key("password")], PasswordTooShort)
    + Check(input.image.None? || isUrl(input.image.value), [Key("image")], InvalidImageUrl)
    + Check(input.callbackURL.None? || isUrl(input.callbackURL.value), [Key("callbackURL")], InvalidCallbackUrl)
  }

  /** Every issue of the user schema carries one of the schema's non-empty messages,
      so the `ValidationFailed` fallback of `createUser` is never used. */
  lemma CreateUserIssueMessagesNonEmpty(input: CreateUserInput, isEmail: string -> bool, isUrl: string -> bool)
    ensures forall i :: 0 <= i < |CreateUserIssues(input, isEmail, isUrl)| ==>
      CreateUserIssues(input, isEmail, isUrl)[i].message != ""
  {
  }

  /** The sign-up request made for a validated input. */
  function SignUpRequest(input: CreateUserInput): SignUpBody {
    SignUpBody(input.name, input.email, input.password, input.image, input.callbackURL, None)
  }

  /** `createUser`: validate, call sign-up, shape the reply. No session is consulted.
      `signUp` is sign-up's answer; `Returns(None)` is a falsy reply. */
  function CreateUser(input: CreateUserInput, isEmail: string -> bool, isUrl: string -> bool,
                      signUp: Answer<Option<SignUpReply>>): (run: Run<User>)
    ensures GetSessionCall !in run.calls
    ensures run.calls == (if CreateUserInputValid(input, isEmail, isUrl) then [SignUpEmailCall(SignUpRequest(input))] else [])
    ensures run.result.Success? <==>
      CreateUserInputValid(input, isEmail, isUrl) && signUp.Returns? && signUp.value.Some?
    ensures !CreateUserInputValid(input, isEmail, isUrl) ==>
      run.result == Failure(CreateUserIssues(input, isEmail, isUrl)[0].message)
    ensures CreateUserInputValid(input, isEmail, isUrl) && signUp == Returns(None) ==>
      run.result == Failure(CreateUserFailed)
    ensures run.result.Success? ==>
      run.result.data == signUp.value.value.user.GetOr(signUp.value.value.asUser)
  {
    var issues := CreateUserIssues(input, isEmail, isUrl);
    CreateUserIssueMessagesNonEmpty(input, isEmail, isUrl);
    if issues != [] then
      // `firstError?.message || ValidationFailed`
      var first := issues[0].message;
      Run(Failure(if first != "" then first else ValidationFailed), [])
    else
      var calls := [SignUpEmailCall(SignUpRequest(input))];
      match signUp
      case Throws(t) => Run(Failure(CaughtMessage(t, CreateUserFailed)), calls)
      case Returns(None) => Run(Failure(CreateUserFailed), calls)
      case Returns(Some(reply)) =>
        // `userData.user || userData`
        Run(Success(if reply.user.Some? then reply.user.value else reply.asUser), calls)
  }

  /** `getCurrentUser`: succeeds exactly when the session lookup finds an active
      session that carries a user, and returns that user. */
  function GetCurrentUser(session: SessionAnswer): (run: Run<User>)
    ensures run.calls == [GetSessionCall]
    ensures run.result.Success? <==> SignedIn(session) && session.value.value.user.Some?
    ensures run.result.Success? ==> run.result.data == session.value.value.user.value
    ensures session.Returns? && !run.result.Success? ==> run.result == Failure(NoAuthenticatedUser)
  {
    match session
    case Throws(t) => Run(Failure(CaughtMessage(t, GetCurrentUserFailed)), [GetSessionCall])
    case Returns(info) =>
      if info.None? || !info.value.active || info.value.user.None? then
        Run(Failure(NoAuthenticatedUser), [GetSessionCall])
      else
        Run(Success(info.value.user.value), [GetSessionCall])
  }

  const LookupNotImplemented := "User lookup not implemented - Better Auth API method needed"

  /** `getUserByEmail` is a placeholder: it never finds anyone and makes no request. */
  function GetUserByEmail(email: string): (r: ActionResult<User>)
    ensures r.Failure?
    ensures r.error == LookupNotImplemented
  {
    Failure(LookupNotImplemented)
  }
}
