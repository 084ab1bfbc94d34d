/**
 * Executing an authorization request: the loop around the machine, the straight-line procedure it
 * amounts to, and the owner's answer (code_grant/authorization.rs).
 */
module AuthorizationFlow {
  import opened Prelude
  import opened Scopes
  import opened Grants
  import opened Registrars
  import opened AuthorizationMachine
  import opened PkceAddons

  datatype Pending = Pending(preGrant: PreGrant, state: Option<string>, extensions: Extensions)

  datatype Call = CallBind | CallExtend | CallNegotiate

  /** The four phases written down one after the other. */
  function Reference(reg: ClientMap, addons: Addons, request: Request): Result<Pending, AuthError>
    requires ValidRegistry(reg)
  {
    if !request.valid || request.clientId.None? then Err(Ignore)
    else if request.redirectUri.Some? && reg.parseUrl(request.redirectUri.value).None? then Err(Ignore)
    else
      match BoundRedirect(reg, request.clientId.value, request.redirectUri)
      case Err(Unspecified) => Err(Ignore)
      case Err(RegistrarFailure) => Err(PrimitiveError)
      case Ok(bound) =>
        BoundIsRegistered(reg, request.clientId.value, request.redirectUri);
        var url := ToUrl(reg, bound.redirect).value;
        if request.responseType != Some("code") then Err(Redirect(WithRequest(request, url, UnsupportedResponseType)))
        else if request.scope.Some? && Parse(request.scope.value).Err?
            then Err(Redirect(WithRequest(request, url, InvalidScope)))
        else
          match ExtendAuthorization(addons, request)
          case None => Err(Redirect(WithRequest(request, url, InvalidRequest)))
          case Some(extensions) =>
            Ok(Pending(PreGrant(bound.clientId, Semantic(url), reg.clients[bound.clientId].defaultScope),
                       request.state, extensions))
  }

  datatype Requested =
    | Nothing
    | Bind(clientId: string, redirectUri: Option<string>)
    | Extend
    | Agree(clientId: string, url: Url, scope: Option<Scope>)

  function Rank(state: State): nat {
    match state
    case Binding(_, _) => 3
    case Extending(_) => 2
    case Negotiating(_) => 1
    case _ => 0
  }

  /** How far the loop has come: the machine's state against the phases already passed. */
  ghost predicate Progress(reg: ClientMap, addons: Addons, request: Request, m: Machine, requested: Requested,
                           theUrl: Option<RegisteredUrl>, calls: seq<Call>)
    requires ValidRegistry(reg)
  {
    match requested
    case Nothing => m == New(reg, request) && calls == []
    case Bind(id, uri) => m == New(reg, request) && m.state == Binding(id, uri) && calls == []
    case Extend =>
      && Validate(reg, request).Binding? && m.state.Extending? && AcceptableRequest(request)
      && BoundRedirect(reg, request.clientId.value, request.redirectUri) == Ok(m.state.bound)
      && theUrl == Some(m.state.bound.redirect) && calls == [CallBind]
    case Agree(id, url, _) =>
      && Validate(reg, request).Binding? && m.state.Negotiating? && AcceptableRequest(request)
      && BoundRedirect(reg, request.clientId.value, request.redirectUri) == Ok(m.state.bound)
      && id == m.state.bound.clientId && ToUrl(reg, m.state.bound.redirect) == Some(url)
      && m.extensions.Some? && m.extensions == ExtendAuthorization(addons, request) && calls == [CallBind, CallExtend]
  }

  /**
   * The executor. None of the `expect`s and `unwrap`s on the way can fail, every primitive is asked at
   * most once and in order, and the result is that of the straight-line procedure.
   */
  method AuthorizationCode(reg: ClientMap, addons: AddonList, request: Request)
    returns (result: Result<Pending, AuthError>, calls: seq<Call>)
    requires ValidRegistry(reg)
    ensures result == Reference(reg, addons.Value(), request)
    ensures calls <= [CallBind, CallExtend, CallNegotiate]
    ensures result.Ok? ==> calls == [CallBind, CallExtend, CallNegotiate]
  {
    var machine := new Authorization(reg, request);
    var requested := Nothing;
    var theUrl: Option<RegisteredUrl> := None;
    calls := [];
    while true
      invariant fresh(machine)
      invariant Progress(reg, addons.Value(), request, machine.Fields(), requested, theUrl, calls)
      decreases Rank(machine.state), if requested.Nothing? then 1 else 0
    {
      var input := NoInput;
      match requested {
        case Nothing =>
        case Bind(id, uri) =>
          calls := calls + [CallBind];
          var bound := BoundRedirect(reg, id, uri);
          if bound.Err? {
            return Err(if bound.error.Unspecified? then Ignore else PrimitiveError), calls;
          }
          BoundIsRegistered(reg, id, uri);
          theUrl := Some(bound.value.redirect);
          input := Bound(request, bound.value);
        case Extend =>
          BoundIsRegistered(reg, request.clientId.value, request.redirectUri);
          calls := calls + [CallExtend];
          var extensions := addons.RunAuthorization(request);
          if extensions.None? {
            return Err(Redirect(WithRequest(request, ToUrl(reg, theUrl.value).value, InvalidRequest))), calls;
          }
          input := Extended(extensions.value);
        case Agree(id, url, scope) =>
          calls := calls + [CallNegotiate];
          var preGrant := Negotiate(reg, BoundClient(id, Semantic(url)));
          input := Negotiated(preGrant.value, request.state);
      }
      var output := machine.Advance(reg, input);
      match output {
        case AskBind(id, uri) => requested := Bind(id, uri);
        case AskExtend => requested := Extend;
        case AskNegotiate(bound, scope) =>
          BoundIsRegistered(reg, request.clientId.value, request.redirectUri);
          requested := Agree(bound.clientId, ToUrl(reg, bound.redirect).value, scope);
        case Finished(preGrant, state, extensions) => return Ok(Pending(preGrant, state, extensions)), calls;
        case Error(error) => return Err(error), calls;
        case Panic => assert false;
      }
    }
  }

  // ------------------------------------------------------- the owner's answer

  /** A redirect with its query parameters. */
  datatype Location = Location(base: Url, params: seq<(string, string)>)

  function StatePair(state: Option<string>): seq<(string, string)> {
    match state
    case Some(s) => [("state", s)]
    case None => []
  }

  /** The executor only ever builds pending requests with a parsed redirect url. */
  predicate Presentable(pending: Pending) {
    pending.preGrant.redirect.Semantic?
  }

  function Deny(pending: Pending): AuthError
    requires Presentable(pending)
  {
    Redirect(ErrorUrl(pending.preGrant.redirect.url, pending.state, AccessDenied))
  }

  /** The grant handed to the authorizer when the owner consents. */
  function ConsentGrant(pending: Pending, owner: string, now: Time): Grant
    requires Presentable(pending)
  {
    Grant(owner, pending.preGrant.clientId, pending.preGrant.scope, pending.preGrant.redirect.url, now + DAY,
          pending.extensions)
  }

  function CodeLocation(pending: Pending, code: string): Location
    requires Presentable(pending)
  {
    Location(pending.preGrant.redirect.url, [("code", code)] + StatePair(pending.state))
  }

  /**
   * Every redirect goes to a url registered for the client that the request named: errors after
   * binding, a denial, and the location carrying the code. Before binding succeeds nothing is
   * redirected.
   */
  lemma RedirectsOnlyToRegisteredUrls(reg: ClientMap, addons: Addons, request: Request)
    requires ValidRegistry(reg)
    ensures var r := Reference(reg, addons, request);
            && (r.Err? && r.error.Redirect? ==>
                  && request.valid && request.clientId.Some?
                  && BoundRedirect(reg, request.clientId.value, request.redirectUri).Ok?
                  && RegisteredFor(reg, request.clientId.value, r.error.url.base)
                  && r.error.url.state == request.state)
            && (r.Ok? ==>
                  && request.clientId == Some(r.value.preGrant.clientId) && Presentable(r.value)
                  && RegisteredFor(reg, request.clientId.value, Deny(r.value).url.base)
                  && (forall code :: RegisteredFor(reg, request.clientId.value, CodeLocation(r.value, code).base))
                  && r.value.preGrant.scope == reg.clients[request.clientId.value].defaultScope)
  {
    if request.clientId.Some? && BoundRedirect(reg, request.clientId.value, request.redirectUri).Ok? {
      BoundIsRegistered(reg, request.clientId.value, request.redirectUri);
    }
  }

  // ------------------------------------------- which request gets which answer

  /** Exactly registered urls are compared as text, semantic ones after parsing. */
  predicate RegisteredMatch(reg: ClientMap, client: EncodedClient, uri: string) {
    exists u :: u in [client.redirect] + client.additional &&
      match u
      case Exact(text) => text == uri
      case Semantic(url) => reg.parseUrl(uri) == Some(url)
  }

  /** Client and redirect url are in order, so that errors may be redirected. */
  predicate Bindable(reg: ClientMap, request: Request) {
    && request.valid && request.clientId.Some? && request.clientId.value in reg.clients
    && (request.redirectUri.Some? ==>
          && reg.parseUrl(request.redirectUri.value).Some?
          && RegisteredMatch(reg, reg.clients[request.clientId.value], request.redirectUri.value))
  }

  /** The url asked for, or else the client's primary one. */
  function Target(reg: ClientMap, request: Request): Option<Url>
    requires Bindable(reg, request)
  {
    if request.redirectUri.Some? then reg.parseUrl(request.redirectUri.value)
    else
      match reg.clients[request.clientId.value].redirect
      case Exact(text) => reg.parseUrl(text)
      case Semantic(url) => Some(url)
  }

  lemma BoundToTarget(reg: ClientMap, request: Request)
    requires ValidRegistry(reg) && request.valid && request.clientId.Some?
    requires request.redirectUri.Some? ==> reg.parseUrl(request.redirectUri.value).Some?
    ensures var bound := BoundRedirect(reg, request.clientId.value, request.redirectUri);
            && (Bindable(reg, request) <==> bound.Ok?) && (bound.Err? ==> bound.error == Unspecified)
            && (bound.Ok? ==>
                  && bound.value.clientId == request.clientId.value
                  && ToUrl(reg, bound.value.redirect) == Target(reg, request) && Target(reg, request).Some?)
  {
    if BoundRedirect(reg, request.clientId.value, request.redirectUri).Ok? {
      BoundIsRegistered(reg, request.clientId.value, request.redirectUri);
    }
  }

  /**
   * Section 4.1.2.1 of RFC 6749: exactly which request gets which error, with its own state and at its own
   * redirect url, and what the owner is asked about.
   */
  lemma AnswersIff(reg: ClientMap, addons: Addons, request: Request)
    requires ValidRegistry(reg)
    ensures var r := Reference(reg, addons, request);
            var refused := exists i :: 0 <= i < |addons.authorization|
                                       && ExecuteAuthorization(addons.authorization[i], request).Refuse?;
            if !Bindable(reg, request) then r == Err(Ignore)
            else
              && Target(reg, request).Some?
              && var base := Target(reg, request).value;
              if request.responseType != Some("code") then
                r == Err(Redirect(ErrorUrl(base, request.state, UnsupportedResponseType)))
              else if request.scope.Some? && Parse(request.scope.value).Err? then
                r == Err(Redirect(ErrorUrl(base, request.state, InvalidScope)))
              else if refused then r == Err(Redirect(ErrorUrl(base, request.state, InvalidRequest)))
              else
                var id := request.clientId.value;
                && ExtendAuthorization(addons, request).Some?
                && r == Ok(Pending(PreGrant(id, Semantic(base), reg.clients[id].defaultScope), request.state,
                                   ExtendAuthorization(addons, request).value))
  {
    if request.valid && request.clientId.Some?
      && (request.redirectUri.Some? ==> reg.parseUrl(request.redirectUri.value).Some?)
    {
      BoundToTarget(reg, request);
    }
    var addon := addons.authorization;
    AuthorizationGathers(addon, request, |addon|);
    assert forall i :: 0 <= i < |addon| ==>
        AuthorizationAnswers(addon, request)[i] == ExecuteAuthorization(addon[i], request);
  }

  /** Which requests reach the owner: a known client, a matching registered url, and nothing malformed. */
  lemma PendingIff(reg: ClientMap, addons: Addons, request: Request)
    requires ValidRegistry(reg)
    ensures Reference(reg, addons, request).Ok? <==>
              && request.valid && request.clientId.Some? && request.clientId.value in reg.clients
              && (request.redirectUri.Some? ==>
                    && reg.parseUrl(request.redirectUri.value).Some?
                    && exists u :: u in Registered(reg.clients[request.clientId.value])
                        && Matches(reg, u, request.redirectUri.value))
              && AcceptableRequest(request) && ExtendAuthorization(addons, request).Some?
  {
  }

  /** A redirect url given in the request is honoured literally or semantically, never replaced. */
  lemma PendingHonoursRequestedUrl(reg: ClientMap, addons: Addons, request: Request)
    requires ValidRegistry(reg) && request.redirectUri.Some?
    requires Reference(reg, addons, request).Ok?
    ensures reg.parseUrl(request.redirectUri.value) == Some(Reference(reg, addons, request).value.preGrant.redirect.url)
  {
    BoundIsRegistered(reg, request.clientId.value, request.redirectUri);
  }
}
