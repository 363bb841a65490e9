# konstructify-web: a Dafny model of the organization-setup core

konstructify-web is a Next.js front end over an external identity service (Better
Auth). Its behaviour worth stating lives in a few places:

- the organization-setup orchestrator `setupOrganization`;
- the server actions it calls (create user, organization and team; invite, add,
  remove and list members);
- the zod validators for the setup form;
- the password generator;
- the avatar initials in the user menu;
- the "active link" rule of the two navigation bars;
- the status-code ladder of the admin sign-up endpoint.

The model is functional. Every call into the identity service is an input
`Answer<T>`: either `Returns(value)` or `Throws(Error(message) | NonError)`. Each
action returns its tagged result together with the list of requests it sent
(`Run<T>`). The orchestrator takes a `SetupWorld` holding every external answer
in the order they are asked: the 16 random bytes, the sign-up reply, the session
lookup and create reply of the organization action and of the team action, and
one session lookup per invite. It returns the result, the steps it attempted and
the requests it sent.

zod's email and URL regexes are the parameters `isEmail` and `isUrl`. The text
a `ZodError` turns into is the parameter `render`. Strings are ASCII: `\s` is
space, tab, line feed, vertical tab, form feed and carriage return, and `\w` is
letters, digits and underscore.

Modules, one per file:

- `Wrappers`: `Option`, and the `{ success, data | error }` shape `ActionResult`.
- `Ascii`: character classes, case mapping, trimming, and `split(/\s+/)`.
- `Validators` (lib/validators/organization.ts): each schema as a zod-style issue
  list and as a declarative predicate.
- `Gateway`: the identity-service records, answers and requests.
- `Passwords` (lib/utils.ts): `generatePassword` over its 16 random bytes.
- `UserActions`, `OrganizationActions`, `TeamActions`, `MemberActions`
  (lib/actions/*.ts).
- `Setup` (lib/actions/organization-setup.ts): the orchestrator.
- `JsValues`, `UserMenu` (components/navigation/user-menu.tsx).
- `Navigation` (side-nav.tsx and bottom-nav.tsx).
- `AdminRoute` (app/api/admin/users/route.ts).

Observations that follow from the model; they are not defects:

- A one-word display name gives its first letter twice ("Ada" gives "AA"). This is
  `UserMenu.OneWordNameRepeats`.
- A derived slug keeps the underscores of the name. A name made only of whitespace
  (for example two spaces, which the name rule accepts) derives the slug "-".
- The setup form's default slug `""` is rejected by the slug rule
  (`Validators.EmptySlugRejected`), while `createOrganization` treats `""` as
  "derive one".
- The unit tests of the orchestrator expect `addMember` calls and mock no session
  lookup. The code makes no `addMember` call: it invites through
  `inviteMemberToOrganization`, which asks for the session. The model follows the
  code.

## Model

| member | source | states |
|---|---|---|
| Validators.ParseRole | lib/validators/organization.ts:4-8 | a role string is accepted iff it is one of "admin", "member", "owner", and the accepted role prints back as the same string |
| Validators.RoleNameRoundTrip | lib/validators/organization.ts:4 | every role's name parses back to that role and is in the enum list |
| Validators.NameIssues | lib/validators/organization.ts:11-19 | an organization or team name has no issue iff its length is 2..50 and every character is a word character, whitespace or '-'; at most two issues, all at the field's path |
| Validators.SlugIssues | lib/validators/organization.ts:20-28 | an absent slug passes; a present one has no issue iff its length is 2..50 over [a-z0-9-]; the empty slug gets two issues |
| Validators.UserIssues | lib/validators/organization.ts:42-48 | a setup user has no issue iff its name length is 2..100 and its email passes the email check |
| Validators.MemberIssues | lib/validators/organization.ts:6-9 | a member has no issue iff its email passes the check and its role is in the enum |
| Validators.EntryIssues | lib/validators/organization.ts:54-55 | the per-entry issues of a member list are empty iff every entry from the given index on is a valid member |
| Validators.MembersIssues | lib/validators/organization.ts:54-57 | a member list has no issue iff it has 1..20 entries, all valid; the empty list always has an issue |
| Validators.SetupIssues | lib/validators/organization.ts:50-58 | a setup input has no issue iff user, organization, team and members are all valid |
| Validators.SlugIsValidName | lib/validators/organization.ts:12-28 | every valid present slug is also a valid organization name |
| Validators.EmptySlugRejected | lib/validators/organization.ts:20-28 | the empty slug is rejected, by both the length and the pattern check |
| Passwords.CharsetHas88Characters | lib/utils.ts:16-17 | the password alphabet has 88 characters |
| Passwords.PasswordFrom | lib/utils.ts:14-26 | the password has 16 characters, each one from the alphabet |
| Passwords.GeneratePassword | lib/utils.ts:14-26 | the loop builds the 16-character password whose i-th character is the alphabet entry at byte i mod 88 |
| Passwords.PasswordDependsOnResidues | lib/utils.ts:21-23 | two byte sequences with the same residues mod 88 give the same password |
| Passwords.PasswordMeetsLengthRules | lib/utils.ts:11-15 | the generated password meets the documented minimum of 12 and the sign-up minimum of 8 |
| UserActions.CreateUserIssues | lib/actions/user.ts:30-39 | the sign-up input has no issue iff name length is 1..100, the email passes, the password has at least 8 characters and present image and callback URLs pass the URL check; a bad name is reported first |
| UserActions.CreateUserIssueMessagesNonEmpty | lib/actions/user.ts:74-79 | every schema issue carries a non-empty message, so the "Validation failed" fallback is never shown |
| UserActions.CreateUser | lib/actions/user.ts:44-87 | no session lookup; sign-up is called exactly when the input is valid; success iff valid and sign-up returns something; a validation failure reports the first issue's message; a null reply gives "Failed to create user"; the data is the reply's `user`, else the reply itself |
| UserActions.GetCurrentUser | lib/actions/user.ts:92-119 | success iff the session lookup returns an active session with a user, whose user is the data; otherwise "No authenticated user found" unless the lookup threw |
| UserActions.GetUserByEmail | lib/actions/user.ts:124-146 | always a failure with the fixed "not implemented" message |
| OrganizationActions.ReplaceSpaceRuns | lib/actions/organization.ts:46 | hyphenating whitespace runs leaves no whitespace, never lengthens the text, and is empty only for empty text |
| OrganizationActions.RunCollapses | lib/actions/organization.ts:46 | a whole whitespace run of any length, followed by text not starting with whitespace, becomes exactly one hyphen |
| OrganizationActions.DeriveSlug | lib/actions/organization.ts:46 | the derived slug has no whitespace, is no longer than the name, and is empty only for an empty name |
| OrganizationActions.SlugSent | lib/actions/organization.ts:46 | a non-empty given slug is sent as is; the slug sent is empty exactly when no non-empty slug is given and the name is empty |
| Gateway.CaughtMessage | lib/actions/organization.ts:60-68 | an `Error` reports its own message; any other thrown value reports the action's fallback text |
| OrganizationActions.ReplaceSpaceRunsChars | lib/actions/organization.ts:46 | every character of the hyphenated text is '-' or a character of the input |
| OrganizationActions.ReplaceSpaceRunsIdentity | lib/actions/organization.ts:46 | a text without whitespace is left unchanged |
| OrganizationActions.ReplaceSpaceRunsPrefix | lib/actions/organization.ts:46 | hyphenation passes over a whitespace-free prefix unchanged |
| OrganizationActions.CreateOrganization | lib/actions/organization.ts:25-69 | without a session, a failure and no create request; with one, one create request carrying the name and the given slug when non-empty, else the derived slug; success iff the reply has an id, with that organization as data; a null reply gives "Failed to create organization"; thrown errors become failures |
| OrganizationActions.DeriveSlugIdempotent | lib/actions/organization.ts:46 | a derived slug has no whitespace and no upper-case letter, and deriving again changes nothing |
| OrganizationActions.DeriveSlugWithoutSpaces | lib/actions/organization.ts:46 | for a name without whitespace the slug is the lower-cased name |
| OrganizationActions.DeriveSlugTwoWords | lib/actions/organization.ts:46 | two whitespace-free words separated by a whitespace run of any width are joined by one hyphen |
| OrganizationActions.AcmeExample | lib/actions/organization.ts:46 | "Acme Construction" derives "acme-construction" |
| OrganizationActions.DerivedSlugCharset | lib/actions/organization.ts:46 | the slug derived from a valid name without underscores uses only [a-z0-9-] |
| TeamActions.CreateTeam | lib/actions/team.ts:25-64 | without a session, a failure and no create request; with one, exactly one create request with the given name and organization id; success iff the reply has an id, with that team as data; a null reply gives "Failed to create team"; thrown errors become failures |
| MemberActions.NormalizeRoles | lib/actions/member.ts:62 | a single role is sent as a one-element list, a list unchanged |
| MemberActions.NormalizeRolesAgree | lib/actions/member.ts:62 | a role and the one-element list of it are sent alike, and normalizing twice changes nothing |
| MemberActions.AddMemberToOrganization | lib/actions/member.ts:39-88 | without a session, the authentication failure and no add request; with one, a single add request with the normalized roles; success iff signed in and the call returns, with its reply as data; thrown errors become failures |
| MemberActions.InviteMemberToOrganization | lib/actions/member.ts:94-148 | the session lookup is the only request and nothing is written; success iff signed in; the invitation echoes email, role, organization and team with status "invited" |
| MemberActions.RemoveMemberFromOrganization | lib/actions/member.ts:153-176 | no session check: one remove request; success iff it returns; thrown errors become failures with the message or the default |
| MemberActions.UpdateMemberRole | lib/actions/member.ts:181-210 | no session check: one update request with the normalized roles; success iff it returns, with its reply as data |
| MemberActions.GetOrganizationMembers | lib/actions/member.ts:215-237 | no session check: one list request; a reply without members gives the empty list |
| Setup.AllInvitations | lib/actions/organization-setup.ts:93-100 | one invitation per member, in member order |
| Setup.InviteAll | lib/actions/organization-setup.ts:91-113 | the invite loop attempts one invite per member, in order, each for the new organization and team, and each asking for the session |
| Setup.Granted | lib/actions/organization-setup.ts:91-113 | keeps, in order, the entries whose invite found an active session; as many as there are such invites |
| Setup.InviteAllInvitations | lib/actions/organization-setup.ts:91-113 | the collected invitations are exactly member i's invitation for each i whose invite was signed in, in member order (`Granted`); hence their count, a subsequence of all invitations, and all of them when every invite is signed in |
| Setup.SetupOrganization | lib/actions/organization-setup.ts:24-132 | no step and no request iff the input is invalid, and then the failure carries the rendered validation error; a run succeeds iff it got past the team step |
| Setup.SetupStopsAtUser | lib/actions/organization-setup.ts:48-62 | a failed user step ends the run with its error; the user step is the only step |
| Setup.SetupStopsAtOrganization | lib/actions/organization-setup.ts:64-75 | a failed organization step ends the run with its error after two steps |
| Setup.SetupStopsAtTeam | lib/actions/organization-setup.ts:77-88 | a failed team step ends the run with its error after three steps |
| Setup.SetupReachesTeam | lib/actions/organization-setup.ts:64-81 | after two successes the team step is requested with the new organization's id |
| Setup.SetupCompletes | lib/actions/organization-setup.ts:90-123 | after three successes the run succeeds, whatever the invites answer, and its steps are the three creations followed by the invite loop |
| Setup.SetupNeverUndoes | lib/actions/organization-setup.ts:44-132 | at most one step per stage and member, and no request deletes, removes or adds a member |
| Setup.SetupStepsInOrder | lib/actions/organization-setup.ts:48-113 | steps follow the order user, organization, team, invites |
| Setup.SetupStepRequests | lib/actions/organization-setup.ts:50-100 | the user step gets the validated name and email and the generated password; the organization step the validated name and slug unchanged; the team step the new organization's id; invite i the i-th member with the new organization and team ids |
| Setup.UserStepPassesValidation | lib/actions/organization-setup.ts:49-55 | after setup validation the user request always passes `createUser`'s schema, so step 1 fails only through the sign-up call |
| Setup.SetupOkIffTeamCreated | lib/actions/organization-setup.ts:57-123 | a run succeeds exactly when user, organization and team were created |
| Setup.SetupInvitations | lib/actions/organization-setup.ts:91-122 | a successful run reports the service's user, organization and team, and exactly the invitations of the members whose invite was signed in, in member order (`Granted`) |
| Setup.SameSessionInvitesEveryone | lib/actions/organization-setup.ts:65-113 | when each invite sees the session that created the organization, a successful run invites every member |
| Ascii.SplitOnSpaceRuns | components/navigation/user-menu.tsx:66 | splitting yields at least one piece, and the last piece is the text after the last whitespace character |
| Ascii.SplitFirstPiece | components/navigation/user-menu.tsx:66-67 | a text starting with a non-space character has a non-empty first piece starting with it |
| Ascii.SplitPiecesHaveNoSpace | components/navigation/user-menu.tsx:66 | no piece of the split contains a whitespace character: the separators are consumed entirely |
| UserMenu.GetAuthUser | components/navigation/user-menu.tsx:26-52 | non-objects give no user; a user is found iff `data.user` or `data.session.user` is an object; the root user wins, and only string fields are kept |
| UserMenu.RootUserPreferred | components/navigation/user-menu.tsx:28-36 | when `data.user` is an object, whatever `data.session` holds does not change the user found |
| UserMenu.DisplayName | components/navigation/user-menu.tsx:60 | the name when it is a non-empty string, otherwise the full name as it is |
| UserMenu.NameInitials | components/navigation/user-menu.tsx:65-69 | for a trimmed non-empty name, the upper-cased first characters of its first and last words |
| UserMenu.ComputeInitials | components/navigation/user-menu.tsx:63-73 | the initials are one or two characters, never empty |
| UserMenu.InitialsFromName | components/navigation/user-menu.tsx:64-69 | a non-blank name gives the upper-cased first characters of the first and last words of its trimmed form, whatever the email |
| UserMenu.InitialsFromEmail | components/navigation/user-menu.tsx:64-72 | without a non-blank name, a non-empty email gives its upper-cased first character |
| UserMenu.InitialsDefault | components/navigation/user-menu.tsx:64-72 | without a non-blank name and without a non-empty email, the initials are "U" |
| UserMenu.OneWordNameRepeats | components/navigation/user-menu.tsx:66-69 | a one-word name gives its upper-cased first letter twice |
| UserMenu.TwoWordNameInitials | components/navigation/user-menu.tsx:64-69 | the width of the whitespace gap does not matter: the first letters of both words are taken |
| UserMenu.MenuInitials | components/navigation/user-menu.tsx:59-75 | the avatar initials for any session data are one or two characters |
| UserMenu.SignedOutShowsU | components/navigation/user-menu.tsx:59-74 | without a user the avatar shows "U" |
| UserMenu.EmailInitialWithoutName | components/navigation/user-menu.tsx:26-72 | a `data.user` object holding only an email is shown by the email's first letter, upper-cased |
| Navigation.IsActive | components/navigation/side-nav.tsx:28-29 | without a pathname nothing is active; an item is active on its own href, and only on paths starting with it |
| Navigation.ActiveIffSegmentPrefix | components/navigation/side-nav.tsx:28-29 | an item is active iff the pathname is its href or continues it with '/' |
| Navigation.ProjectsXInactive | components/navigation/side-nav.tsx:29 | "/projectsX" does not activate "/projects" |
| Navigation.ActiveExclusive | components/navigation/bottom-nav.tsx:28-29 | hrefs that differ inside both cannot be active together |
| Navigation.AtMostOneActive | components/navigation/side-nav.tsx:14-29 | for the four fixed hrefs at most one item is active, whatever the pathname |
| Navigation.SideNavLinks | components/navigation/side-nav.tsx:26-45 | one link per item in order, highlighted iff active; a missing pathname highlights nothing |
| Navigation.BottomNavLinks | components/navigation/bottom-nav.tsx:26-47 | one link per item in order; `aria-current` is "page" iff the item is active and absent otherwise; a missing pathname marks nothing |
| Navigation.NavigationsAgree | components/navigation/bottom-nav.tsx:14-19 | both bars link the same four pages in the same order and highlight the same position |
| Navigation.OneCurrentPage | components/navigation/bottom-nav.tsx:28-40 | at most one bottom link carries `aria-current` |
| AdminRoute.SafeParse | app/api/admin/users/route.ts:4-11 | the body parses iff it is a plain object with a passing email, a password of 8 or more, a non-empty name, optional URL fields that pass the URL check and an optional boolean `rememberMe`; the result carries exactly those fields |
| AdminRoute.Post | app/api/admin/users/route.ts:13-54 | a missing or empty secret gives 500 first; a header not equal to the secret gives 401; an unparseable body gives 400 "Invalid JSON body"; a schema failure gives 400 "Invalid request body"; the sign-up is forwarded iff every check passes and the email is non-empty, carrying the six parsed fields |
| AdminRoute.SchemaFailuresRejected | app/api/admin/users/route.ts:4-11 | a non-object body, a failing email, a short password, an empty name, a bad URL and a non-boolean `rememberMe` each end in "Invalid request body" |
| AdminRoute.MissingFieldsUnreachable | app/api/admin/users/route.ts:38-44 | when the email check rejects "", the "Missing required fields" answer never happens and every accepted body is forwarded |

## Left out

- Request-scoped I/O: `headers()`, the request headers forwarded to the service,
  `process.env`, `console.*` logging and `async`/`await` ordering. Environment
  values and headers are parameters; logging has no effect on results.
- The identity service itself (Better Auth) and the database. Its answers are
  inputs. Whether `asResponse: true` could make `signUpEmail` throw in the admin
  endpoint is not modelled; the endpoint's result is the request it forwards.
- zod internals: the email and URL regexes are the parameters `isEmail` and
  `isUrl`, and the text of a `ZodError` is the parameter `render`.
  `zod` counts length in UTF-16 code units; the model counts characters.
- Unicode: `\s`, `\w`, `toLowerCase` and `toUpperCase` are modelled on ASCII only.
- Numbers in JSON bodies are integers in the model. No field the endpoint reads is
  numeric.
- The property names of arrays and strings (`length` and so on). `JsValues.Get`
  returns `undefined` for any property of a non-object, which is what the
  properties read here give.
- `randomBytes`: the bytes are an input. Modulo bias and the chance that two
  passwords differ are probabilistic, and the "mix of character classes" promise
  of lib/utils.ts:12 is not enforced by the code, so none of them is stated.
- `cn` (class-name merging) and all markup, icons and styling of the menus.
- The sign-out handler and the loading skeleton of the user menu; they only call
  the router and the service.
- The `addMemberToOrganization` re-export in lib/actions/organization-setup.ts:14-16
  forwards to `MemberActions.AddMemberToOrganization` unchanged.
- The outer `catch` of `setupOrganization` only sees the validation error. The
  actions it calls never throw, and each invite's own `catch` sees nothing, because
  the invite action never throws either.
- The stale tests in tests/actions/organization-setup.test.ts and
  tests/e2e/organization-setup.spec.ts. They expect `addMember` calls, mock no
  session lookup, and use roles outside the enum. The model follows the code.
