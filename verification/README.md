# hapi-auth-saml: the plugin's decision layer in Dafny

This project models the hapi plugin in `lib/index.js`. The plugin lets a hapi
application send users to a SAML Identity Provider and take them back when
the IdP posts its assertion. It also logs them out again. The SAML engine
(`./saml-hapi`) and hapi itself are outside the model. What remains is the
plugin's own logic:

- **Registration.** The plugin copies the caller's options with `_.clone`.
  It fixes the four route paths from that copy. Each path is the caller's
  value when truthy and a literal default otherwise: `/login`,
  `/loginComplete`, `/logout` and `/`. It also picks the completion action
  `delegateLoginComplete`: the caller's `onLoginComplete` if given, else a
  redirect.
- **Assertion consumer** (`POST loginComplete`). The handler stores a new
  `verifyFunc` closure in the shared copy of the options and runs the
  engine. For a valid assertion the engine calls the closure with a profile.
  The closure passes that profile to the application's account resolver
  `samlSetAccount`, and the resolver answers `(err, profile, redirectUrl)`:
  - a truthy `err` ends the request with an error reply. A Boom error is
    passed on unchanged; anything else becomes a 400 Bad Request. The
    completion action does not run.
  - otherwise the completion action runs with the resolver's own profile and
    redirect URL. The default action redirects to `redirectUrl` when truthy,
    else to `redirectTo`.
  The closure never calls the engine's `done`: the plugin replies itself.
- **Logout** (`GET pathLogout`). The handler builds a descriptor from the
  session cookie: `nameID`, `sessionIndex`, and `nameIDFormat`, which is the
  configured format or the e-mail address format. It gives the descriptor to
  the engine. An engine error (`err != null`) answers status 500 and leaves
  the session alone. Success clears the session first, then redirects to
  the URL the engine returned.

Modules:

- `JsValues` (`js_values.dfy`) covers the JavaScript the file relies on:
  optional properties, truthiness, `||`, `!= null` and `Boom.badRequest`.
  A callback's `err` is one of four kinds: null/undefined, another falsy
  value, a Boom error, or any other truthy value. With these, the two error
  tests of the file (`if (err)` in the resolver callback, `err != null` in
  the logout callback) keep their different meanings.
- `SamlDecisions` (`saml_decisions.dfy`) holds the pure decisions as
  functions, with the lemmas about them.
- `SamlPlugin` (`saml_plugin.dfy`) holds the stateful part as classes:
  - `OptionsObject` is a JavaScript options object; `Clone` is `_.clone`.
  - `Exchange` is one request: its session cookie, whether the session was
    cleared, and the ordered log of what the handler did.
  - `Plugin` is the registered plugin. Its handlers are methods proved
    against the `SamlDecisions` functions. Its invariant `Valid` says that the
    shared copy is a separate object that differs from the registered options
    only in `verifyFunc`. The handlers' frames leave the caller's object
    untouched, and since they never read it, the caller may change it after
    registration.

The engine and the application appear as parameters:
- the assertion check is `Option<Profile>` (None for an invalid assertion);
- the account resolver is a function from the engine's profile to its
  callback arguments;
- the engine's logout is a function from the descriptor to `(err, url)`.

Three behaviours of the code that the model keeps as written:
- The handlers do write to the configuration shared by all requests: every
  POST assigns `settings.verifyFunc` on the registration-time copy
  (lib/index.js:71). The caller's own object is the one that is never written.
- A missing `samlSetAccount` is not rejected at registration; the code simply
  calls it.
- The logout error test is `err != null`, not truthiness, so a falsy non-null
  `err` counts as an engine error at logout. The same value counts as success
  in the resolver callback (`JsValues.ErrorTestsDiffer`).

## Model

| member | source | states |
|---|---|---|
| `JsValues.Or` | lib/index.js:26-29 | `v \|\| fallback` is the value when truthy and the fallback otherwise; a non-empty fallback gives a non-empty result |
| `JsValues.BadRequest` | lib/index.js:74 | `Boom.badRequest(err)` is a pre-classified error with status 400 |
| `JsValues.ErrorTestsDiffer` | lib/index.js:73-104 | every `err` that `if (err)` rejects also fails `err != null`; the two disagree exactly on falsy non-null values |
| `SamlDecisions.ResolvePaths` | lib/index.js:26-29 | each of `loginPath`, `loginComplete`, `pathLogout`, `redirectTo` is the caller's value when truthy, else `/login`, `/loginComplete`, `/logout`, `/`; an empty string falls back; no resolved path is empty |
| `SamlDecisions.ResolvedPathsAreTheNonEmptyOnes` | lib/index.js:26-29 | the possible path tuples are exactly those of non-empty strings; each path can be configured independently |
| `SamlDecisions.ResolvePathsIdempotent` | lib/index.js:26-29 | giving the resolved paths back as options resolves to the same paths |
| `SamlDecisions.ResolveCompletion` | lib/index.js:33-39 | the completion is the caller's `onLoginComplete` exactly when one is given, else the default redirect closing over the resolved `redirectTo` |
| `SamlDecisions.DefaultLoginComplete` | lib/index.js:34-39 | the default completion always redirects: to `redirectUrl` when truthy, else to `redirectTo`, and never to "" when `redirectTo` is non-empty |
| `SamlDecisions.AccountOutcome` | lib/index.js:72-77 | the request gets an error reply iff the resolver's `err` is truthy; a Boom error is replied unchanged, any other as status 400; `onLoginComplete` is called iff there is no error and it was supplied, with the callback's request, profile and redirect URL; otherwise the default redirect |
| `SamlDecisions.VerifyOutcome` | lib/index.js:71-78 | the closure acts on the resolver's answer to the engine's profile: it is an error reply iff that answer's `err` is truthy, and a completion call carries the resolver's profile (not the engine's) and this request |
| `SamlDecisions.CompletionProfileIsTheResolvers` | lib/index.js:71-76 | whatever profile the engine extracted, the resolver can make `onLoginComplete` receive any profile: the inner `profile` shadows the outer one |
| `SamlDecisions.OutcomeDependsOnlyOnResolverAnswer` | lib/index.js:71-77 | two engine profiles for which the resolver answers alike get the same outcome |
| `SamlDecisions.DefaultSuccessRedirect` | lib/index.js:29-76 | from the raw options: without `onLoginComplete`, success redirects to the truthy `redirectUrl`, else to the truthy configured `redirectTo`, else to `/`, and never to an empty URL |
| `SamlDecisions.LogoutDescriptor` | lib/index.js:95-101 | `nameID` and `sessionIndex` are the session's `name` and `session`; `nameIDFormat` is the configured one when truthy, else the e-mail address format, and is never empty |
| `SamlDecisions.LogoutEffects` | lib/index.js:103-108 | exactly one reply, and it is the last step; the session is cleared iff the engine's `err` is null or undefined; an error gives only status 500; success clears, then redirects to the engine's URL |
| `SamlPlugin.OptionsObject.Clone` | lib/index.js:24 | `_.clone` makes a new object with the same properties and leaves the source unchanged |
| `SamlPlugin.Plugin.Register` | lib/index.js:24-39 | registration copies the options into a fresh object and leaves the caller's unchanged; the paths and the completion are those resolved from the options; the plugin invariant holds |
| `SamlPlugin.Plugin.DelegateLoginComplete` | lib/index.js:33-39 | running the completion appends one step: the call of the caller's `onLoginComplete` with this request, the profile and the redirect URL, or else the default redirect for that URL; the session is untouched |
| `SamlPlugin.Plugin.HandleLoginComplete` | lib/index.js:64-81 | the POST stores this request's `verifyFunc` in the shared copy only; the caller's options and the invariant are kept; a valid assertion appends exactly `VerifyOutcome`; an invalid one adds nothing from the plugin; the session is untouched |
| `SamlPlugin.Plugin.HandleLogout` | lib/index.js:93-108 | the engine receives `LogoutDescriptor` of the session cookie and the configured format; the request's steps are `LogoutEffects` of the engine's answer; the session is cleared iff the engine reported no error |

## Left out

- Registering the `saml` scheme, the `saml-strategy` strategy and the three routes with hapi, and calling `next()` (lib/index.js:15-22, 45-63, 89-93, 113). These are framework wiring, and their only effect is the registry entries.
- The `GET loginPath` handler body, which is empty (lib/index.js:50-52), and the package attributes (lib/index.js:116-118).
- `./saml-hapi` is not part of this model. `authenticate` and `logout` are parameters: the profile of a valid assertion, and a function from the logout descriptor to `(err, url)`. When an assertion is invalid, the engine replies itself; the model records nothing from the plugin in that case.
- `samlOptions` and `samlSetAccount` as stored properties. The resolver's behaviour is a parameter of the POST handler. A missing resolver, which would throw a TypeError when called, is not modelled.
- Option values of an unexpected type. A falsy non-string path or format (`false`, `0`) behaves like an absent one, and that is how the model treats it. These cases are not modelled:
  - a truthy path that is not a string;
  - a truthy `onLoginComplete` that is not a function: line 33 selects it, and calling it at line 76 throws a TypeError;
  - a truthy `redirectUrl` from the resolver that is not a string (line 36), which the model cannot express because `redirectUrl` is an optional string.
- Asynchrony and concurrent requests. Each handler runs to completion in one call. Two overlapping POSTs that overwrite the shared `settings.verifyFunc` (lib/index.js:71) before the engine calls it are not modelled, because `saml-hapi` is not shown.
- A logout without a session cookie: `request.state.data` is read unguarded (lib/index.js:97), so `HandleLogout` requires the cookie to be present.
- `reply.code(500)` (lib/index.js:104) is taken to answer with status 500. Whether hapi's reply interface offers that call is outside the model.
- Boom's internals, beyond "pre-classified, carries a status" and "`badRequest` is 400". In particular, the message Boom gives a wrapped raw error depends on the Boom release.
