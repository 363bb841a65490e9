/** The zod schemas of lib/validators/organization.ts. Each schema is modelled twice:
    as the list of issues zod reports (in zod's order, with the messages that file
    gives) and as a declarative predicate; the contracts tie the two together. The email
    check is zod's built-in regex, taken here as the parameter `isEmail`. */
module Validators {
  import opened Wrappers
  import opened Ascii

  /** `organizationRoles`: the three roles the identity service supports. */
  datatype Role = Admin | Member | Owner

  const RoleNames: seq<string> := ["admin", "member", "owner"]

  function RoleName(r: Role): string {
    match r
    case Admin => "admin"
    case Member => "member"
    case Owner => "owner"
  }

  /** `z.enum(organizationRoles)`: accepts exactly the three literal role names. */
  function ParseRole(s: string): (r: Option<Role>)
    ensures r.Some? <==> s in RoleNames
    ensures r.Some? ==> RoleName(r.value) == s
  {
    if s == "admin" then Some(Admin)
    else if s == "member" then Some(Member)
    else if s == "owner" then Some(Owner)
    else None
  }

  lemma RoleNameRoundTrip(r: Role)
    ensures ParseRole(RoleName(r)) == Some(r)
    ensures RoleName(r) in RoleNames
  {
  }

  /** One zod issue: where it is and what it says. */
  datatype PathKey = Key(name: string) | Index(i: nat)
  datatype Issue = Issue(path: seq<PathKey>, message: string)

  /** A character of `[\w\s-]`. */
  predicate IsNameChar(c: char) { IsWordChar(c) || IsSpace(c) || c == '-' }

  /** A character of `[a-z0-9-]`. */
  predicate IsSlugChar(c: char) { IsLower(c) || IsDigit(c) || c == '-' }

  /** The whole string matches `^[\w\s-]+$`. */
  predicate MatchesNamePattern(s: string) {
    |s| > 0 && forall i :: 0 <= i < |s| ==> IsNameChar(s[i])
  }

  /** The whole string matches `^[a-z0-9-]+$`. */
  predicate MatchesSlugPattern(s: string) {
    |s| > 0 && forall i :: 0 <= i < |s| ==> IsSlugChar(s[i])
  }

  // ----- declarative reading of the schemas -----

  /** Organization and team names: 2 to 50 characters of `[\w\s-]`. */
  predicate ValidName(s: string) {
    2 <= |s| <= 50 && forall i :: 0 <= i < |s| ==> IsNameChar(s[i])
  }

  /** An absent slug is fine; a present one has 2 to 50 characters of `[a-z0-9-]`. */
  predicate ValidSlug(slug: Option<string>) {
    slug.None? || (2 <= |slug.value| <= 50 && forall i :: 0 <= i < |slug.value| ==> IsSlugChar(slug.value[i]))
  }

  datatype SetupUser = SetupUser(name: string, email: string)
  datatype OrganizationFields = OrganizationFields(name: string, slug: Option<string>)
  datatype TeamFields = TeamFields(name: string)
  datatype MemberFields = MemberFields(email: string, role: string)
  /** The raw input of the setup form. */
  datatype SetupInput = SetupInput(
    user: SetupUser,
    organization: OrganizationFields,
    team: TeamFields,
    members: seq<MemberFields>)

  predicate ValidUser(u: SetupUser, isEmail: string -> bool) {
    2 <= |u.name| <= 100 && isEmail(u.email)
  }

  predicate ValidMember(m: MemberFields, isEmail: string -> bool) {
    isEmail(m.email) && m.role in RoleNames
  }

  predicate ValidMembers(ms: seq<MemberFields>, isEmail: string -> bool) {
    1 <= |ms| <= 20 && forall i :: 0 <= i < |ms| ==> ValidMember(ms[i], isEmail)
  }

  predicate ValidSetupInput(input: SetupInput, isEmail: string -> bool) {
    && ValidUser(input.user, isEmail)
    && ValidName(input.organization.name)
    && ValidSlug(input.organization.slug)
    && ValidName(input.team.name)
    && ValidMembers(input.members, isEmail)
  }

  // ----- the schemas as zod runs them -----

  function Check(ok: bool, path: seq<PathKey>, message: string): seq<Issue> {
    if ok then [] else [Issue(path, message)]
  }

  /** The messages of the setup schema's checks. */
  const NameTooShort := "Name must be at least 2 characters"
  const NameTooLong := "Name cannot exceed 50 characters"
  const NameBadCharacters := "Name can only contain letters, numbers, spaces, and hyphens"
  const SlugTooShort := "Slug must be at least 2 characters"
  const SlugTooLong := "Slug cannot exceed 50 characters"
  const SlugBadCharacters := "Slug can only contain lowercase letters, numbers, and hyphens"
  const UserNameTooLong := "Name cannot exceed 100 characters"
  const NoMembers := "Add at least one member"
  const TooManyMembers := "Maximum 20 members can be invited at once"
  const EmailMessage := "Please enter a valid email address"

  /** The `name` field of `organizationSchema` and `teamSchema`: zod runs every check
      of a string and reports each one that fails. */
  function NameIssues(path: seq<PathKey>, s: string): (r: seq<Issue>)
    ensures r == [] <==> ValidName(s)
    ensures |r| <= 2
    ensures forall i :: 0 <= i < |r| ==> r[i].path == path
  {
    Check(|s| >= 2, path, NameTooShort)
    + Check(|s| <= 50, path, NameTooLong)
    + Check(MatchesNamePattern(s), path, NameBadCharacters)
  }

  /** The optional `slug` field of `organizationSchema`. */
  function SlugIssues(path: seq<PathKey>, slug: Option<string>): (r: seq<Issue>)
    ensures r == [] <==> ValidSlug(slug)
    ensures slug == Some("") ==> |r| == 2
  {
    match slug
    case None => []
    case Some(s) =>
      Check(|s| >= 2, path, SlugTooShort)
      + Check(|s| <= 50, path, SlugTooLong)
      + Check(MatchesSlugPattern(s), path, SlugBadCharacters)
  }

  function UserIssues(u: SetupUser, isEmail: string -> bool): (r: seq<Issue>)
    ensures r == [] <==> ValidUser(u, isEmail)
  {
    Check(|u.name| >= 2, [Key("user"), Key("name")], NameTooShort)
    + Check(|u.name| <= 100, [Key("user"), Key("name")], UserNameTooLong)
    + Check(isEmail(u.email), [Key("user"), Key("email")], EmailMessage)
  }

  /** zod's default message for a value outside an enum. */
  function RoleMessage(received: string): string {
    "Invalid enum value. Expected 'admin' | 'member' | 'owner', received '" + received + "'"
  }

  function MemberIssues(m: MemberFields, index: nat, isEmail: string -> bool): (r: seq<Issue>)
    ensures r == [] <==> ValidMember(m, isEmail)
  {
    Check(isEmail(m.email), [Key("members"), Index(index), Key("email")], EmailMessage)
    + Check(ParseRole(m.role).Some?, [Key("members"), Index(index), Key("role")], RoleMessage(m.role))
  }

  /** The issues of the entries `ms[from..]`, each under its own index. */
  function EntryIssues(ms: seq<MemberFields>, from: nat, isEmail: string -> bool): (r: seq<Issue>)
    requires from <= |ms|
    ensures r == [] <==> forall i :: from <= i < |ms| ==> ValidMember(ms[i], isEmail)
    decreases |ms| - from
  {
    if from == |ms| then []
    else MemberIssues(ms[from], from, isEmail) + EntryIssues(ms, from + 1, isEmail)
  }

  /** `z.array(memberSchema).min(1).max(20)`: the length checks report first,
      then every entry is checked. */
  function MembersIssues(ms: seq<MemberFields>, isEmail: string -> bool): (r: seq<Issue>)
    ensures r == [] <==> ValidMembers(ms, isEmail)
    ensures ms == [] ==> r != []
  {
    Check(|ms| >= 1, [Key("members")], NoMembers)
    + Check(|ms| <= 20, [Key("members")], TooManyMembers)
    + EntryIssues(ms, 0, isEmail)
  }

  /** `organizationSetupSchema`: the fields are checked in declaration order and the
      input is rejected as a whole when any issue is reported. */
  function SetupIssues(input: SetupInput, isEmail: string -> bool): (r: seq<Issue>)
    ensures r == [] <==> ValidSetupInput(input, isEmail)
  {
    UserIssues(input.user, isEmail)
    + NameIssues([Key("organization"), Key("name")], input.organization.name)
    + SlugIssues([Key("organization"), Key("slug")], input.organization.slug)
    + NameIssues([Key("team"), Key("name")], input.team.name)
    + MembersIssues(input.members, isEmail)
  }

  /** A valid slug is also a valid organization name: `[a-z0-9-]` lies inside
      `[\w\s-]` and both bounds are 2 and 50. */
  lemma SlugIsValidName(s: string)
    requires ValidSlug(Some(s))
    ensures ValidName(s)
  {
    forall i | 0 <= i < |s|
      ensures IsNameChar(s[i])
    {
      assert IsSlugChar(s[i]);
    }
  }

  /** The empty slug, which the setup form uses as its default, is rejected. */
  lemma EmptySlugRejected()
    ensures !ValidSlug(Some(""))
    ensures |SlugIssues([Key("organization"), Key("slug")], Some(""))| == 2
  {
  }
}
