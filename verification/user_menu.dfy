/** The avatar menu of components/navigation/user-menu.tsx: reading the signed-in
    user out of whatever the session hook returned, choosing the name to show and
    computing the avatar initials. */
module UserMenu {
  import opened Wrappers
  import opened Ascii
  import opened JsValues

  /** The `AuthUser` shape: each field is present only when it held a string. */
  datatype AuthUser = AuthUser(name: Option<string>, fullName: Option<string>, email: Option<string>)

  /** `typeof v === "string" ? v : undefined`. */
  function StringField(v: JsValue): (r: Option<string>)
    ensures r.Some? <==> v.Str?
    ensures r.Some? ==> v == Str(r.value)
  {
    if v.Str? then Some(v.s) else None
  }

  /** The field `o` copies the property value `v` when it is a string and is absent otherwise. */
  predicate Copies(o: Option<string>, v: JsValue) {
    (o.Some? <==> v.Str?) && (o.Some? ==> v == Str(o.value))
  }

  /** `u` is the user object `obj` with every non-string field dropped. */
  predicate CopiesStrings(u: AuthUser, obj: JsValue) {
    && Copies(u.name, Get(obj, "name"))
    && Copies(u.fullName, Get(obj, "fullName"))
    && Copies(u.email, Get(obj, "email"))
  }

  function UserFrom(obj: JsValue): AuthUser {
    AuthUser(StringField(Get(obj, "name")), StringField(Get(obj, "fullName")), StringField(Get(obj, "email")))
  }

  /** `getAuthUser`: the user found at `data.user`, or failing that at
      `data.session.user`, keeping only its string fields. */
  function GetAuthUser(data: JsValue): (r: Option<AuthUser>)
    ensures !IsObject(data) ==> r == None
    ensures r.Some? <==>
      IsObject(data) && (IsObject(Get(data, "user")) || IsObject(Get(Get(data, "session"), "user")))
    ensures r.Some? && IsObject(Get(data, "user")) ==> CopiesStrings(r.value, Get(data, "user"))
    ensures r.Some? && !IsObject(Get(data, "user"))
      ==> CopiesStrings(r.value, Get(Get(data, "session"), "user"))
  {
    if !IsObject(data) then None
    else if IsObject(Get(data, "user")) then Some(UserFrom(Get(data, "user")))
    else
      var session := Get(data, "session");
      if IsObject(session) && IsObject(Get(session, "user")) then Some(UserFrom(Get(session, "user")))
      else None
  }

  /** Two users that copy the same object are the same user. */
  lemma CopiesStringsUnique(u: AuthUser, w: AuthUser, obj: JsValue)
    requires CopiesStrings(u, obj) && CopiesStrings(w, obj)
    ensures u == w
  {
  }

  /** When both places hold a user object, the root one wins, whatever the session holds. */
  lemma RootUserPreferred(data: JsValue, session: JsValue)
    requires data.Obj? && "user" in data.fields && IsObject(data.fields["user"])
    ensures GetAuthUser(data) == GetAuthUser(Obj(data.fields["session" := session]))
    ensures CopiesStrings(GetAuthUser(data).value, data.fields["user"])
  {
    var other := Obj(data.fields["session" := session]);
    assert Get(other, "user") == data.fields["user"];
    CopiesStringsUnique(GetAuthUser(data).value, GetAuthUser(other).value, data.fields["user"]);
  }

  /** `user?.name || user?.fullName`: the name when it is a non-empty string,
      otherwise whatever `fullName` holds. */
  function DisplayName(user: Option<AuthUser>): (r: Option<string>)
    ensures user.None? ==> r.None?
    ensures user.Some? && user.value.name.Some? && user.value.name.value != [] ==> r == user.value.name
    ensures user.Some? && (user.value.name.None? || user.value.name.value == [])
      ==> r == user.value.fullName
  {
    match user
    case None => None
    case Some(u) => if u.name.Some? && u.name.value != [] then u.name else u.fullName
  }

  /** `user?.email`. */
  function EmailOf(user: Option<AuthUser>): Option<string> {
    if user.Some? then user.value.email else None
  }

  /** The first character of a piece as a one-character string, or `""` for an
      empty piece (`piece?.[0] || ""`). */
  function Initial(piece: string): (r: string)
    ensures |r| <= 1
    ensures piece != [] ==> r == [piece[0]]
  {
    if piece == [] then [] else [piece[0]]
  }

  /** `(first + last).toUpperCase()` for a trimmed, non-empty name: the pieces of
      `split(/\s+/)` are then non-empty, so both initials are present. */
  function NameInitials(n: string): (r: string)
    requires n != [] && !IsSpace(n[0]) && !IsSpace(n[|n| - 1])
    ensures r == [ToUpper(n[0]), ToUpper(n[LastWordStart(n)])]
  {
    var parts := SplitOnSpaceRuns(n);
    SplitFirstPiece(n);
    UpperPair(parts[0][0], parts[|parts| - 1][0]);
    Upper(Initial(parts[0]) + Initial(parts[|parts| - 1]))
  }

  lemma UpperPair(a: char, b: char)
    ensures Upper([a] + [b]) == [ToUpper(a), ToUpper(b)]
  {
  }

  /** `computeInitials`: from a name, the first characters of its first and last
      whitespace-separated words, upper-cased; without a name, the upper-cased first
      character of the email; without either, "U". The three cases are the lemmas
      below. */
  function ComputeInitials(name: Option<string>, email: Option<string>): (r: string)
    ensures 1 <= |r| <= 2
  {
    var n := Trim(name.GetOr([]));
    if n != [] then
      var initials := NameInitials(n);
      if initials != [] then initials else "U"
    else
      var e := email.GetOr([]);
      var initial := if e != [] then Upper([e[0]]) else [];
      if initial != [] then initial else "U"
  }

  /** A name that is not blank gives the upper-cased first characters of its first
      and last words. */
  lemma InitialsFromName(name: string, email: Option<string>)
    requires Trim(name) != []
    ensures var n := Trim(name);
      ComputeInitials(Some(name), email) == [ToUpper(n[0]), ToUpper(n[LastWordStart(n)])]
  {
  }

  /** Without a usable name, the upper-cased first character of the email. */
  lemma InitialsFromEmail(name: Option<string>, email: string)
    requires name.None? || Trim(name.value) == []
    requires email != []
    ensures ComputeInitials(name, Some(email)) == [ToUpper(email[0])]
  {
  }

  /** Without a usable name or email, "U". */
  lemma InitialsDefault(name: Option<string>, email: Option<string>)
    requires name.None? || Trim(name.value) == []
    requires email.None? || email.value == []
    ensures ComputeInitials(name, email) == "U"
  {
  }

  /** A name of one word repeats its first letter: "ada" gives "AA". */
  lemma OneWordNameRepeats(word: string, email: Option<string>)
    requires word != [] && NoSpace(word)
    ensures ComputeInitials(Some(word), email) == [ToUpper(word[0]), ToUpper(word[0])]
  {
    TrimTrimmed(word);
    LastWordStartUnique(word, 0);
    InitialsFromName(word, email);
  }

  /** The width of the whitespace gap does not matter: the first and last words
      decide the initials. */
  lemma TwoWordNameInitials(first: string, gap: string, last: string, email: Option<string>)
    requires first != [] && NoSpace(first) && last != [] && NoSpace(last)
    requires gap != [] && AllSpace(gap)
    ensures ComputeInitials(Some(first + gap + last), email) == [ToUpper(first[0]), ToUpper(last[0])]
  {
    var n := first + gap + last;
    assert n[0] == first[0] && n[|n| - 1] == last[|last| - 1];
    TrimTrimmed(n);
    LastWordStartUnique(n, |first| + |gap|);
    InitialsFromName(n, email);
  }

  /** The initials shown by the menu for what the session hook returned. */
  function MenuInitials(data: JsValue): (r: string)
    ensures 1 <= |r| <= 2
  {
    var user := GetAuthUser(data);
    ComputeInitials(DisplayName(user), EmailOf(user))
  }

  /** Signed out (no data, or data without a user object), the avatar shows "U". */
  lemma SignedOutShowsU(data: JsValue)
    requires GetAuthUser(data).None?
    ensures MenuInitials(data) == "U"
  {
    InitialsDefault(None, None);
  }

  /** A user without a usable name is shown by the first letter of the email. */
  lemma EmailInitialWithoutName(data: JsValue, email: string)
    requires data.Obj? && "user" in data.fields
    requires data.fields["user"] == Obj(map["email" := Str(email)])
    requires email != []
    ensures MenuInitials(data) == [ToUpper(email[0])]
  {
    EmailOnlyUser(data, email);
    InitialsFromEmail(None, email);
  }

  lemma EmailOnlyUser(data: JsValue, email: string)
    requires data.Obj? && "user" in data.fields
    requires data.fields["user"] == Obj(map["email" := Str(email)])
    ensures GetAuthUser(data) == Some(AuthUser(None, None, Some(email)))
  {
    assert Get(data.fields["user"], "name") == Undefined;
    assert Get(data.fields["user"], "fullName") == Undefined;
  }
}
