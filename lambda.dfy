/**
 * The skill's Lambda handler, lambda/index.js: it picks the bearer token the
 * directive carries, resolves the Amazon user it belongs to, and forwards the
 * whole directive to the server under a short-lived signed claim naming that
 * user. The server's answer goes back to Alexa unchanged.
 *
 * The profile lookup and the forwarding POST are external calls; their
 * answers are parameters (`None` when the call fails).
 */
module Lambda {
  import opened Json

  /** `request.directive.header.namespace`. */
  function DirectiveNamespace(request: Json): Access
  {
    Path(Val(request), ["directive", "header", "namespace"])
  }

  /**
   * The `switch`: a discovery directive carries its token in the payload
   * scope, an authorization directive carries none (`null`), every other
   * directive in the endpoint scope. A missing step on the way throws.
   */
  function BearerToken(request: Json): (r: Access)
    ensures DirectiveNamespace(request).Thrown? ==> r.Thrown?
    ensures DirectiveNamespace(request) == Val(JStr("Alexa.Authorization")) ==> r == Val(JNull)
    ensures DirectiveNamespace(request) == Val(JStr("Alexa.Discovery")) ==>
      r == Path(Val(request), ["directive", "payload", "scope", "token"])
    ensures (!DirectiveNamespace(request).Thrown? &&
             DirectiveNamespace(request) != Val(JStr("Alexa.Authorization")) &&
             DirectiveNamespace(request) != Val(JStr("Alexa.Discovery"))) ==>
      r == Path(Val(request), ["directive", "endpoint", "scope", "token"])
  {
    var ns := DirectiveNamespace(request);
    if ns.Thrown? then Thrown
    else if ns == Val(JStr("Alexa.Discovery")) then Path(Val(request), ["directive", "payload", "scope", "token"])
    else if ns == Val(JStr("Alexa.Authorization")) then Val(JNull)
    else Path(Val(request), ["directive", "endpoint", "scope", "token"])
  }

  /** The stand-in user when there is no token to look up. */
  const NoUser := JObj([("user_id", JNull)])

  /**
   * `user`: the Amazon profile of a truthy token, `{user_id: null}` otherwise.
   * `profile` is the answer of the profile endpoint, `None` when the call fails.
   */
  function UserFor(token: Access, profile: Option<Json>): (r: Result<Json>)
    requires !token.Thrown?
    ensures r.Err? <==> Truthy(token) && profile.None?
    ensures r.Err? ==> r.fault == UpstreamError
    ensures r.Ok? && Truthy(token) ==> r.value == profile.value
    ensures !Truthy(token) ==> r == Ok(NoUser)
  {
    if Truthy(token) then
      (if profile.Some? then Ok(profile.value) else Err(UpstreamError))
    else Ok(NoUser)
  }

  /** The forwarding POST: the directive wrapped as `{request}`, and the signed `x-alexa-jwt` claim. */
  datatype Forward = Forward(url: string, body: Json, claims: Json, expiresIn: int)

  /** Lifetime of the signed claim, `expiresIn: '5m'`, in seconds. */
  const ClaimLifetime := 300

  function Forwarded(request: Json, profile: Option<Json>): (r: Result<Forward>)
    ensures r.Err? <==> BearerToken(request).Thrown? || (Truthy(BearerToken(request)) && profile.None?)
    ensures r.Err? && BearerToken(request).Thrown? ==> r.fault == TypeError
    ensures r.Ok? ==>
      r.value.url == "https://alexa.iot.oz.nu/lambda" && r.value.expiresIn == ClaimLifetime &&
      r.value.body == JObj([("request", request)]) &&
      r.value.claims == JObj([("user", UserFor(BearerToken(request), profile).value)])
  {
    var token := BearerToken(request);
    if token.Thrown? then Err(TypeError)
    else match UserFor(token, profile)
      case Err(f) => Err(f)
      case Ok(user) =>
        Ok(Forward("https://alexa.iot.oz.nu/lambda", JObj([("request", request)]), JObj([("user", user)]), ClaimLifetime))
  }

  /**
   * `handler`: what `context.succeed` receives. `answer` is the server's
   * reply to the forwarding POST, `None` when that call fails.
   */
  function Handler(request: Json, profile: Option<Json>, answer: Option<Json>): (r: Result<Json>)
    ensures r.Ok? <==> Forwarded(request, profile).Ok? && answer.Some?
    ensures r.Ok? ==> r.value == answer.value
    ensures Forwarded(request, profile).Err? ==> r == Err(Forwarded(request, profile).fault)
  {
    match Forwarded(request, profile)
    case Err(f) => Err(f)
    case Ok(_) => if answer.Some? then Ok(answer.value) else Err(UpstreamError)
  }

  /** An authorization directive is forwarded without asking for a profile. */
  lemma AuthorizationNeedsNoProfile(request: Json)
    requires DirectiveNamespace(request) == Val(JStr("Alexa.Authorization"))
    ensures Forwarded(request, None).Ok?
    ensures Forwarded(request, None).value.claims == JObj([("user", NoUser)])
  {
  }
}
