/** The admin sign-up endpoint of app/api/admin/users/route.ts: a fixed ladder of
    checks (configured secret, matching header, parseable JSON, schema, required
    fields) before the request is handed to the identity service. The configured
    secret, the header and the parsed body are inputs; `None` for the body stands
    for a request whose body is not JSON. */
module AdminRoute {
  import opened Wrappers
  import opened JsValues
  import opened Gateway

  /** What the handler answers: a plain response, or the sign-up request whose
      response it returns unchanged. */
  datatype AdminReply = Respond(status: int, text: string) | ForwardSignUp(body: SignUpBody)

  const Misconfigured := "Server misconfigured: missing ADMIN_API_SECRET"
  const Unauthorized := "Unauthorized"
  const InvalidJsonBody := "Invalid JSON body"
  const InvalidRequestBody := "Invalid request body"
  const MissingRequiredFields := "Missing required fields: name, email, password"

  /** A required string field with its check (`z.string().email()`, `.min(8)`, `.min(1)`). */
  function RequiredString(v: JsValue, ok: string -> bool): (r: Option<string>)
    ensures r.Some? <==> v.Str? && ok(v.s)
    ensures r.Some? ==> v == Str(r.value)
  {
    if v.Str? && ok(v.s) then Some(v.s) else None
  }

  /** `z.string().url().optional()`: the outer `None` is a parse failure, the inner
      one an absent field. */
  function OptionalUrl(v: JsValue, isUrl: string -> bool): (r: Option<Option<string>>)
    ensures r.Some? <==> v.Undefined? || (v.Str? && isUrl(v.s))
    ensures r == Some(None) <==> v.Undefined?
    ensures r.Some? && r.value.Some? ==> v == Str(r.value.value)
  {
    if v.Undefined? then Some(None)
    else if v.Str? && isUrl(v.s) then Some(Some(v.s))
    else None
  }

  /** `z.boolean().optional()`. */
  function OptionalBool(v: JsValue): (r: Option<Option<bool>>)
    ensures r.Some? <==> v.Undefined? || v.Bool?
    ensures r.Some? && r.value.Some? ==> v == Bool(r.value.value)
  {
    if v.Undefined? then Some(None)
    else if v.Bool? then Some(Some(v.b))
    else None
  }

  function AtLeast8(s: string): bool { |s| >= 8 }
  function AtLeast1(s: string): bool { |s| >= 1 }

  /** `AdminUserSignupSchema`, read declaratively: a plain object whose fields have
      the required types and pass their checks. Unknown keys are ignored. */
  predicate SchemaAccepts(body: JsValue, isEmail: string -> bool, isUrl: string -> bool) {
    && body.Obj?
    && Get(body, "email").Str? && isEmail(Get(body, "email").s)
    && Get(body, "password").Str? && |Get(body, "password").s| >= 8
    && Get(body, "name").Str? && |Get(body, "name").s| >= 1
    && (Get(body, "image").Undefined? || (Get(body, "image").Str? && isUrl(Get(body, "image").s)))
    && (Get(body, "rememberMe").Undefined? || Get(body, "rememberMe").Bool?)
    && (Get(body, "callbackURL").Undefined? || (Get(body, "callbackURL").Str? && isUrl(Get(body, "callbackURL").s)))
  }

  /** The parsed body carries exactly the six fields of `body`. */
  predicate Carries(parsed: SignUpBody, body: JsValue) {
    && Get(body, "email") == Str(parsed.email)
    && Get(body, "password") == Str(parsed.password)
    && Get(body, "name") == Str(parsed.name)
    && (if parsed.image.Some? then Get(body, "image") == Str(parsed.image.value) else Get(body, "image").Undefined?)
    && (if parsed.callbackURL.Some? then Get(body, "callbackURL") == Str(parsed.callbackURL.value)
        else Get(body, "callbackURL").Undefined?)
    && (if parsed.rememberMe.Some? then Get(body, "rememberMe") == Bool(parsed.rememberMe.value)
        else Get(body, "rememberMe").Undefined?)
  }

  /** `AdminUserSignupSchema.safeParse`, field by field. */
  function SafeParse(body: JsValue, isEmail: string -> bool, isUrl: string -> bool): (r: Option<SignUpBody>)
    ensures r.Some? <==> SchemaAccepts(body, isEmail, isUrl)
    ensures r.Some? ==> Carries(r.value, body)
  {
    if !body.Obj? then None
    else
      var email := RequiredString(Get(body, "email"), isEmail);
      var password := RequiredString(Get(body, "password"), AtLeast8);
      var name := RequiredString(Get(body, "name"), AtLeast1);
      var image := OptionalUrl(Get(body, "image"), isUrl);
      var rememberMe := OptionalBool(Get(body, "rememberMe"));
      var callbackURL := OptionalUrl(Get(body, "callbackURL"), isUrl);
      if email.None? || password.None? || name.None? || image.None? || rememberMe.None? || callbackURL.None?
      then None
      else Some(SignUpBody(name.value, email.value, password.value, image.value, callbackURL.value, rememberMe.value))
  }

  /** Two parses that carry the same body are the same request. */
  lemma CarriesUnique(a: SignUpBody, b: SignUpBody, body: JsValue)
    requires Carries(a, body) && Carries(b, body)
    ensures a == b
  {
  }

  /** The configured secret is usable: set and non-empty (`!secret` rejects both). */
  predicate Configured(secret: Option<string>) {
    secret.Some? && secret.value != []
  }

  /** `POST`. */
  function Post(secret: Option<string>, header: Option<string>, body: Option<JsValue>,
                isEmail: string -> bool, isUrl: string -> bool): (r: AdminReply)
    ensures !Configured(secret) ==> r == Respond(500, Misconfigured)
    ensures Configured(secret) && header != secret ==> r == Respond(401, Unauthorized)
    ensures Configured(secret) && header == secret && body.None? ==> r == Respond(400, InvalidJsonBody)
    ensures Configured(secret) && header == secret && body.Some? && !SchemaAccepts(body.value, isEmail, isUrl)
      ==> r == Respond(400, InvalidRequestBody)
    ensures r.ForwardSignUp? <==>
      Configured(secret) && header == secret && body.Some? && SchemaAccepts(body.value, isEmail, isUrl)
      && Get(body.value, "email") != Str([])
    ensures Configured(secret) && header == secret && body.Some? && SchemaAccepts(body.value, isEmail, isUrl)
      && Get(body.value, "email") == Str([])
      ==> r == Respond(400, MissingRequiredFields)
    ensures r.ForwardSignUp? ==> Carries(r.body, body.value)
    ensures r.Respond? ==> r.status == 500 || r.status == 401 || r.status == 400
  {
    if !Configured(secret) then Respond(500, Misconfigured)
    else if header != secret then Respond(401, Unauthorized)
    else if body.None? then Respond(400, InvalidJsonBody)
    else
      match SafeParse(body.value, isEmail, isUrl)
      case None => Respond(400, InvalidRequestBody)
      case Some(parsed) =>
        if parsed.email == [] || parsed.password == [] || parsed.name == [] then Respond(400, MissingRequiredFields)
        else ForwardSignUp(parsed)
  }

  /** Each way a parsed body can break the schema ends in "Invalid request body". */
  lemma SchemaFailuresRejected(secret: Option<string>, body: JsValue, isEmail: string -> bool, isUrl: string -> bool)
    requires Configured(secret)
    ensures !body.Obj? ==> Post(secret, secret, Some(body), isEmail, isUrl) == Respond(400, InvalidRequestBody)
    ensures Get(body, "email").Str? && !isEmail(Get(body, "email").s)
      ==> Post(secret, secret, Some(body), isEmail, isUrl) == Respond(400, InvalidRequestBody)
    ensures Get(body, "password").Str? && |Get(body, "password").s| < 8
      ==> Post(secret, secret, Some(body), isEmail, isUrl) == Respond(400, InvalidRequestBody)
    ensures Get(body, "name") == Str([])
      ==> Post(secret, secret, Some(body), isEmail, isUrl) == Respond(400, InvalidRequestBody)
    ensures Get(body, "image").Str? && !isUrl(Get(body, "image").s)
      ==> Post(secret, secret, Some(body), isEmail, isUrl) == Respond(400, InvalidRequestBody)
    ensures Get(body, "callbackURL").Str? && !isUrl(Get(body, "callbackURL").s)
      ==> Post(secret, secret, Some(body), isEmail, isUrl) == Respond(400, InvalidRequestBody)
    ensures !Get(body, "rememberMe").Undefined? && !Get(body, "rememberMe").Bool?
      ==> Post(secret, secret, Some(body), isEmail, isUrl) == Respond(400, InvalidRequestBody)
  {
  }

  /** The "Missing required fields" answer cannot happen once the schema accepted
      the body, as long as the email check rejects the empty string: the schema
      already demands a password of 8 characters and a name of one. */
  lemma MissingFieldsUnreachable(secret: Option<string>, header: Option<string>, body: Option<JsValue>,
                                 isEmail: string -> bool, isUrl: string -> bool)
    requires !isEmail([])
    ensures Post(secret, header, body, isEmail, isUrl) != Respond(400, MissingRequiredFields)
    ensures Configured(secret) && header == secret && body.Some? && SchemaAccepts(body.value, isEmail, isUrl)
      ==> Post(secret, header, body, isEmail, isUrl).ForwardSignUp?
  {
  }
}
