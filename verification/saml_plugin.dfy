/** The registered hapi SAML plugin (lib/index.js, `registerPlugin`) as state:
    the caller's options object, the copy of it the route handlers share and
    write to, and the handlers of the assertion-consumer and logout routes
    acting on one request at a time. The decisions they take are the functions
    of module SamlDecisions. */
module SamlPlugin {
  import opened JsValues
  import opened SamlDecisions

  /** A JavaScript plugin options object: the one the caller passes to
      `register`, or the shallow copy `_.clone` makes of it. */
  class OptionsObject {
    var loginPath: Option<string>
    var loginComplete: Option<string>
    var pathLogout: Option<string>
    var redirectTo: Option<string>
    var nameIDFormat: Option<string>
    var onLoginComplete: Option<FunctionRef>
    var verifyFunc: Option<Verifier>

    /** The object's properties as a value. */
    function Value(): Options
      reads this
    {
      Options(loginPath, loginComplete, pathLogout, redirectTo, nameIDFormat, onLoginComplete, verifyFunc)
    }

    /** An object literal with the given properties. */
    constructor (o: Options)
      ensures Value() == o
    {
      loginPath, loginComplete, pathLogout, redirectTo := o.loginPath, o.loginComplete, o.pathLogout, o.redirectTo;
      nameIDFormat, onLoginComplete, verifyFunc := o.nameIDFormat, o.onLoginComplete, o.verifyFunc;
    }

    /** `_.clone(source)`: a new object with the same properties. */
    constructor Clone(source: OptionsObject)
      ensures Value() == source.Value()
      ensures unchanged(source)
    {
      loginPath, loginComplete, pathLogout, redirectTo := source.loginPath, source.loginComplete, source.pathLogout, source.redirectTo;
      nameIDFormat, onLoginComplete, verifyFunc := source.nameIDFormat, source.onLoginComplete, source.verifyFunc;
    }
  }

  /** One HTTP request as a handler sees it: its identity (with its `reply`),
      the session cookie `request.state.data`, whether
      `request.auth.session.clear()` has run, and what the handler did, in
      order. */
  class Exchange {
    const request: RequestRef
    const state: Option<SessionData>
    var cleared: bool
    var effects: seq<Effect>

    /** A request that has not been handled yet. */
    constructor (request: RequestRef, state: Option<SessionData>)
      ensures this.request == request && this.state == state
      ensures !cleared && effects == []
    {
      this.request, this.state := request, state;
      cleared, effects := false, [];
    }
  }

  /** The plugin after `registerPlugin` has run. */
  class Plugin {
    /** The object the caller passed to `register`. */
    const options: OptionsObject
    /** `_.clone(options)`, read by every handler and written by the
        assertion-consumer handler. */
    const settings: OptionsObject
    /** `loginPath`, `loginComplete`, `pathLogout` and `redirectTo`. */
    const paths: Paths
    /** `delegateLoginComplete`. */
    const delegate: Completion
    /** `options` as it was at registration. */
    ghost const registered: Options

    /** The copy is a separate object from the caller's and differs from the
        options as registered in `verifyFunc` at most; the paths and the
        completion action are those of the registered options. The caller's
        object is not part of the invariant: the handlers never read it, so
        the caller may change it freely after registration. */
    ghost predicate Valid()
      reads this, settings
    {
      settings != options &&
      settings.Value().(verifyFunc := registered.verifyFunc) == registered &&
      paths == ResolvePaths(registered) &&
      delegate == ResolveCompletion(registered, paths.redirectTo)
    }

    /** `registerPlugin(server, options, next)`, without the route and scheme
        registration: copy the options, then fix the paths and the completion
        action from the copy. */
    constructor Register(options: OptionsObject)
      ensures Valid()
      ensures this.options == options && registered == options.Value()
      ensures fresh(settings) && settings.Value() == options.Value()
      ensures unchanged(options)
      ensures paths == ResolvePaths(options.Value())
      ensures delegate == ResolveCompletion(options.Value(), paths.redirectTo)
    {
      this.options := options;
      registered := options.Value();
      var copy := new OptionsObject.Clone(options);
      settings := copy;
      var redirectTo := Or(copy.redirectTo, DefaultRedirectTo);
      paths := Paths(Or(copy.loginPath, DefaultLoginPath), Or(copy.loginComplete, DefaultLoginCompletePath),
                     Or(copy.pathLogout, DefaultPathLogout), redirectTo);
      delegate := if copy.onLoginComplete.Some? then Override(copy.onLoginComplete.value)
                  else DefaultRedirect(redirectTo);
    }

    /** `delegateLoginComplete(request, reply, profile, redirectUrl)`. */
    method DelegateLoginComplete(ex: Exchange, profile: Profile, redirectUrl: Option<string>)
      modifies ex
      ensures delegate.Override? ==>
                ex.effects == old(ex.effects) + [CallOnLoginComplete(delegate.handler, ex.request, profile, redirectUrl)]
      ensures delegate.DefaultRedirect? ==>
                ex.effects == old(ex.effects) + [Reply(DefaultLoginComplete(delegate.redirectTo, redirectUrl))]
      ensures ex.cleared == old(ex.cleared)
    {
      match delegate
      case Override(f) =>
        ex.effects := ex.effects + [CallOnLoginComplete(f, ex.request, profile, redirectUrl)];
      case DefaultRedirect(to) =>
        if Truthy(redirectUrl) {
          ex.effects := ex.effects + [Reply(Redirect(redirectUrl.value))];
        } else {
          ex.effects := ex.effects + [Reply(Redirect(to))];
        }
    }

    /** The `POST loginComplete` handler. It stores a fresh `verifyFunc` for
        this request in the shared copy and runs the engine's `authenticate`
        on it. When the engine finds a valid assertion (`assertion` is its
        profile) it calls `settings.verifyFunc`, which asks the account
        resolver and acts on its answer; an invalid assertion is answered by
        the engine itself, not by the plugin. */
    method HandleLoginComplete(ex: Exchange, assertion: Option<Profile>, resolver: Profile -> AccountResult)
      requires Valid()
      modifies settings, ex
      ensures Valid()
      ensures unchanged(options)
      ensures settings.verifyFunc == Some(Verifier(ex.request))
      ensures ex.cleared == old(ex.cleared)
      ensures assertion.None? ==> ex.effects == old(ex.effects)
      ensures assertion.Some? ==> ex.effects == old(ex.effects) + [VerifyOutcome(delegate, ex.request, assertion.value, resolver)]
    {
      settings.verifyFunc := Some(Verifier(ex.request));
      if assertion.Some? {
        var result := resolver(assertion.value);
        if result.err.IsTruthy() {
          var error := if result.err.Boom? then result.err else BadRequest(result.err);
          ex.effects := ex.effects + [Reply(Error(error))];
        } else {
          DelegateLoginComplete(ex, result.profile, result.redirectUrl);
        }
      }
    }

    /** The `GET pathLogout` handler. It builds the logout descriptor from the
        session cookie, which it reads without checking that there is one, and
        gives it to the engine (`engine`). An engine error answers 500 and
        leaves the session; success clears the session, then redirects to the
        URL the engine returned. `sent` is the descriptor given to the engine. */
    method HandleLogout(ex: Exchange, engine: LogoutRequest -> LogoutResult) returns (sent: LogoutRequest)
      requires Valid()
      requires ex.state.Some?
      modifies ex
      ensures sent == LogoutDescriptor(settings.nameIDFormat, ex.state.value)
      ensures ex.effects == old(ex.effects) + LogoutEffects(engine(sent))
      ensures engine(sent).err.IsNonNull() ==> ex.cleared == old(ex.cleared)
      ensures !engine(sent).err.IsNonNull() ==> ex.cleared
    {
      var data := ex.state.value;
      sent := LogoutRequest(LogoutUser(data.name, Or(settings.nameIDFormat, DefaultNameIDFormat), data.session));
      var result := engine(sent);
      if result.err != Nullish {
        ex.effects := ex.effects + [Reply(StatusCode(500))];
        return;
      }
      ex.cleared := true;
      ex.effects := ex.effects + [ClearSession];
      ex.effects := ex.effects + [Reply(Redirect(result.url))];
    }
  }

  /** Registration and a logout from a session, seen from outside: the
      caller edits its own options object after registration, which changes
      nothing for the plugin; the descriptor carries the session's identity and
      the configured format, the session is cleared, the browser goes to the
      engine's URL, and the caller's object holds what the caller put there. */
  method LogoutScenario()
  {
    var options := new OptionsObject(Options(None, None, Some(""), None, Some("urn:x"), None, None));
    var plugin := new Plugin.Register(options);
    assert plugin.paths.pathLogout == "/logout";
    options.pathLogout := Some("/elsewhere");
    var ex := new Exchange(RequestRef(1), Some(SessionData("alice@example.com", "idx-1")));
    var sent := plugin.HandleLogout(ex, (d: LogoutRequest) => LogoutResult(Nullish, "https://idp/slo"));
    assert sent.user == LogoutUser("alice@example.com", "urn:x", "idx-1");
    assert ex.cleared && ex.effects == [ClearSession, Reply(Redirect("https://idp/slo"))];
    assert plugin.paths.pathLogout == "/logout";
    assert options.Value() == Options(None, None, Some("/elsewhere"), None, Some("urn:x"), None, None);
  }
}
