/** The decision layer of the hapi SAML plugin (lib/index.js) as pure
    functions: how the options fall back to their defaults, what the
    assertion-consumer callback does with the account resolver's answer, and
    what the logout handler sends to the SAML engine and does with its reply.
    The stateful handlers that use these decisions are in module SamlPlugin. */
module SamlDecisions {
  import opened JsValues

  /** A SAML profile: the attribute bag the engine extracts from an assertion
      and the account resolver hands back. The plugin never looks inside it. */
  type Profile = map<string, string>

  /** The identity of an application function, such as `onLoginComplete`.
      The plugin only passes it on or calls it; it never inspects it. */
  datatype FunctionRef = FunctionRef(id: nat)

  /** The identity of one HTTP request together with its `reply` interface. */
  datatype RequestRef = RequestRef(id: nat)

  /** `settings.verifyFunc`: the closure the assertion-consumer handler builds;
      it captures the `request` and `reply` of the POST that built it. */
  datatype Verifier = Verifier(request: RequestRef)

  /** The plugin options as an object value: the properties the plugin reads
      or writes. A function-valued property is None when it is absent. */
  datatype Options = Options(
    loginPath: Option<string>,
    loginComplete: Option<string>,
    pathLogout: Option<string>,
    redirectTo: Option<string>,
    nameIDFormat: Option<string>,
    onLoginComplete: Option<FunctionRef>,
    verifyFunc: Option<Verifier>)

  const DefaultLoginPath: string := "/login"
  const DefaultLoginCompletePath: string := "/loginComplete"
  const DefaultPathLogout: string := "/logout"
  const DefaultRedirectTo: string := "/"
  const DefaultNameIDFormat: string := "urn:oasis:names:tc:SAML:1.1:nameid-format:emailAddress"

  /** The four paths fixed at registration. */
  datatype Paths = Paths(loginPath: string, loginComplete: string, pathLogout: string, redirectTo: string)

  predicate NonEmpty(p: Paths) {
    p.loginPath != "" && p.loginComplete != "" && p.pathLogout != "" && p.redirectTo != ""
  }

  /** Registration-time defaulting of the paths: each one is the caller's value
      when that is truthy, and its literal default otherwise (an empty string
      falls back too). */
  function ResolvePaths(o: Options): (p: Paths)
    ensures Truthy(o.loginPath) ==> p.loginPath == o.loginPath.value
    ensures !Truthy(o.loginPath) ==> p.loginPath == DefaultLoginPath
    ensures Truthy(o.loginComplete) ==> p.loginComplete == o.loginComplete.value
    ensures !Truthy(o.loginComplete) ==> p.loginComplete == DefaultLoginCompletePath
    ensures Truthy(o.pathLogout) ==> p.pathLogout == o.pathLogout.value
    ensures !Truthy(o.pathLogout) ==> p.pathLogout == DefaultPathLogout
    ensures Truthy(o.redirectTo) ==> p.redirectTo == o.redirectTo.value
    ensures !Truthy(o.redirectTo) ==> p.redirectTo == DefaultRedirectTo
    ensures NonEmpty(p)
  {
    Paths(Or(o.loginPath, DefaultLoginPath),
          Or(o.loginComplete, DefaultLoginCompletePath),
          Or(o.pathLogout, DefaultPathLogout),
          Or(o.redirectTo, DefaultRedirectTo))
  }

  /** The registered paths are exactly the combinations of non-empty strings:
      every such combination can be configured, each path independently of the
      others, and no configuration yields an empty path. */
  lemma {:induction false} ResolvedPathsAreTheNonEmptyOnes(p: Paths)
    ensures (exists o :: ResolvePaths(o) == p) <==> NonEmpty(p)
  {
    if NonEmpty(p) {
      var o := Options(Some(p.loginPath), Some(p.loginComplete), Some(p.pathLogout), Some(p.redirectTo),
                       None, None, None);
      assert ResolvePaths(o) == p;
    }
  }

  /** Defaulting is idempotent: feeding the registered paths back in as
      options registers the same paths. */
  lemma ResolvePathsIdempotent(o: Options)
    ensures var p := ResolvePaths(o);
            ResolvePaths(o.(loginPath := Some(p.loginPath), loginComplete := Some(p.loginComplete),
                            pathLogout := Some(p.pathLogout), redirectTo := Some(p.redirectTo))) == p
  {
  }

  /** `delegateLoginComplete`: the action run once an account is resolved. */
  datatype Completion =
    | DefaultRedirect(redirectTo: string) // the plugin's own function, closing over `redirectTo`
    | Override(handler: FunctionRef)      // the caller's `onLoginComplete`

  /** `settings.onLoginComplete || function (...) {...}`: a supplied function is
      truthy, so it wins; otherwise the default closes over the registered
      `redirectTo`. */
  function ResolveCompletion(o: Options, redirectTo: string): (c: Completion)
    ensures o.onLoginComplete.Some? <==> c.Override?
    ensures c.Override? ==> c.handler == o.onLoginComplete.value
    ensures c.DefaultRedirect? ==> c.redirectTo == redirectTo
  {
    match o.onLoginComplete
    case Some(f) => Override(f)
    case None => DefaultRedirect(redirectTo)
  }

  /** What the plugin can hand to `reply`. */
  datatype Response =
    | Redirect(url: string)   // `reply.redirect(url)`
    | Error(error: ErrValue)  // `reply(err)` with a Boom error
    | StatusCode(code: nat)   // `reply.code(code)`

  /** One observable step of a handler, in the order it happens. */
  datatype Effect =
    | Reply(response: Response)
    | CallOnLoginComplete(handler: FunctionRef, request: RequestRef, profile: Profile, redirectUrl: Option<string>)
    | ClearSession            // `request.auth.session.clear()`

  /** The default completion: redirect to `redirectUrl` when it is truthy,
      else to the registered `redirectTo`. */
  function DefaultLoginComplete(redirectTo: string, redirectUrl: Option<string>): (r: Response)
    ensures r.Redirect?
    ensures Truthy(redirectUrl) ==> r.url == redirectUrl.value
    ensures !Truthy(redirectUrl) ==> r.url == redirectTo
    ensures redirectTo != "" ==> r.url != ""
  {
    if Truthy(redirectUrl) then Redirect(redirectUrl.value) else Redirect(redirectTo)
  }

  /** The arguments the account resolver (`samlSetAccount`) passes to its
      callback: `(err, profile, redirectUrl)`. */
  datatype AccountResult = AccountResult(err: ErrValue, profile: Profile, redirectUrl: Option<string>)

  /** The callback the plugin gives the account resolver: a truthy `err` ends
      the request with an error reply (a Boom error unchanged, anything else
      as a 400 Bad Request) and the completion is not run; otherwise the
      completion runs with the callback's own profile and redirect URL. */
  function AccountOutcome(c: Completion, request: RequestRef, res: AccountResult): (e: Effect)
    ensures res.err.IsTruthy() <==> e.Reply? && e.response.Error?
    ensures res.err.Boom? ==> e == Reply(Error(res.err))
    ensures res.err.Raw? ==> e.Reply? && e.response.Error? && e.response.error.Boom? && e.response.error.status == 400
    ensures e.CallOnLoginComplete? <==> !res.err.IsTruthy() && c.Override?
    ensures e.CallOnLoginComplete? ==> e == CallOnLoginComplete(c.handler, request, res.profile, res.redirectUrl)
    ensures !res.err.IsTruthy() && c.DefaultRedirect? ==> e == Reply(DefaultLoginComplete(c.redirectTo, res.redirectUrl))
  {
    if res.err.IsTruthy() then
      Reply(Error(if res.err.Boom? then res.err else BadRequest(res.err)))
    else
      match c
      case Override(f) => CallOnLoginComplete(f, request, res.profile, res.redirectUrl)
      case DefaultRedirect(to) => Reply(DefaultLoginComplete(to, res.redirectUrl))
  }

  /** `settings.verifyFunc(profile, done)`: the engine hands over the profile of
      a valid assertion; the closure asks the resolver about it and acts on the
      resolver's answer. The engine's `done` is never called. */
  function VerifyOutcome(c: Completion, request: RequestRef, profile: Profile, resolver: Profile -> AccountResult): (e: Effect)
    ensures resolver(profile).err.IsTruthy() <==> e.Reply? && e.response.Error?
    ensures e.CallOnLoginComplete? ==> e.profile == resolver(profile).profile && e.request == request
  {
    AccountOutcome(c, request, resolver(profile))
  }

  /** The profile the completion receives is the one in the resolver's callback
      (its parameter shadows the engine's): whatever the engine extracted, the
      resolver can make the completion see any profile it likes. */
  lemma {:induction false} CompletionProfileIsTheResolvers(h: FunctionRef, request: RequestRef, extracted: Profile, chosen: Profile)
    ensures exists resolver :: VerifyOutcome(Override(h), request, extracted, resolver)
                               == CallOnLoginComplete(h, request, chosen, None)
  {
    var resolver := (p: Profile) => AccountResult(Nullish, chosen, None);
    assert VerifyOutcome(Override(h), request, extracted, resolver) == CallOnLoginComplete(h, request, chosen, None);
  }

  /** Two assertions whose resolver answers agree get the same outcome: the
      engine's profile reaches the outcome only through the resolver. */
  lemma OutcomeDependsOnlyOnResolverAnswer(c: Completion, request: RequestRef, p1: Profile, p2: Profile,
                                           resolver: Profile -> AccountResult)
    requires resolver(p1) == resolver(p2)
    ensures VerifyOutcome(c, request, p1, resolver) == VerifyOutcome(c, request, p2, resolver)
  {
  }

  /** End to end from the options: with no `onLoginComplete` and a successful
      resolver, the assertion consumer redirects to the resolver's
      `redirectUrl` if truthy, else to the caller's `redirectTo` if truthy,
      else to "/"; the target is never empty. */
  lemma DefaultSuccessRedirect(o: Options, request: RequestRef, profile: Profile, resolver: Profile -> AccountResult)
    requires o.onLoginComplete.None?
    requires !resolver(profile).err.IsTruthy()
    ensures var res := resolver(profile);
            var target := if Truthy(res.redirectUrl) then res.redirectUrl.value
                          else if Truthy(o.redirectTo) then o.redirectTo.value
                          else DefaultRedirectTo;
            VerifyOutcome(ResolveCompletion(o, ResolvePaths(o).redirectTo), request, profile, resolver)
              == Reply(Redirect(target)) && target != ""
  {
  }

  /** `request.state.data`: the session cookie the logout handler reads. */
  datatype SessionData = SessionData(name: string, session: string)

  /** The `options` object the logout handler gives the engine. */
  datatype LogoutUser = LogoutUser(nameID: string, nameIDFormat: string, sessionIndex: string)
  datatype LogoutRequest = LogoutRequest(user: LogoutUser)

  /** The logout descriptor: the session's `name` and `session` become
      `nameID` and `sessionIndex`, and `nameIDFormat` is the configured one when
      truthy, else the e-mail address format. */
  function LogoutDescriptor(nameIDFormat: Option<string>, data: SessionData): (d: LogoutRequest)
    ensures d.user.nameID == data.name
    ensures d.user.sessionIndex == data.session
    ensures Truthy(nameIDFormat) ==> d.user.nameIDFormat == nameIDFormat.value
    ensures !Truthy(nameIDFormat) ==> d.user.nameIDFormat == DefaultNameIDFormat
    ensures d.user.nameIDFormat != ""
  {
    LogoutRequest(LogoutUser(data.name, Or(nameIDFormat, DefaultNameIDFormat), data.session))
  }

  /** The arguments the engine passes to the logout callback: `(err, url)`. */
  datatype LogoutResult = LogoutResult(err: ErrValue, url: string)

  /** The logout callback: an engine error (anything but null or undefined)
      gives status 500 and leaves the session alone; otherwise the session is
      cleared first and then the browser is sent to the engine's URL. Either
      way exactly one reply is made, and it is the last step. */
  function LogoutEffects(res: LogoutResult): (effects: seq<Effect>)
    ensures |effects| > 0 && effects[|effects| - 1].Reply?
    ensures forall i :: 0 <= i < |effects| - 1 ==> !effects[i].Reply?
    ensures ClearSession in effects <==> !res.err.IsNonNull()
    ensures res.err.IsNonNull() ==> effects == [Reply(StatusCode(500))]
    ensures !res.err.IsNonNull() ==> effects == [ClearSession, Reply(Redirect(res.url))]
  {
    if res.err.IsNonNull() then [Reply(StatusCode(500))]
    else [ClearSession, Reply(Redirect(res.url))]
  }
}
