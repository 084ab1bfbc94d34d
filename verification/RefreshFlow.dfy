/**
 * Executing a refresh request: the loop around the machine, the straight-line procedure it amounts
 * to, and what a chain of such calls does to a stored grant (code_grant/refresh.rs).
 */
module RefreshFlow {
  import opened Prelude
  import opened Scopes
  import opened Grants
  import opened Registrars
  import opened TokenErrors
  import opened RefreshMachine
  import opened FailureFree
  import opened FaultyCalls
  import S = Stores
  import K = SelfKeys
  import M = TokenMaps

  datatype Call = CheckClient | RecoverGrant | RefreshToken

  /** What the outside decides while one request is served. */
  datatype Env = Env(recover: S.Session, refresh: S.Session, recoveredAt: Time, authenticatedAt: Time)

  predicate Usable(env: Env) {
    |env.recover.choices| == 1 && |env.refresh.choices| == 8
  }

  /** How the issuer would answer each call, made on its own. */
  datatype Issuer = Issuer(
    store: S.Store,
    recover: string -> S.Outcome,
    refresh: (string, Grant) -> (S.Store, S.Outcome))

  function OutcomeOf(op: S.Op): S.Outcome {
    if op.Done? then op.outcome else S.Failed
  }

  function Recover(d: Option<Time>, st: S.Store, token: string, session: S.Session): S.Outcome {
    OutcomeOf(S.CallAlone(d, st, S.RecoverRefreshHget(token), session).1)
  }

  function Renew(d: Option<Time>, st: S.Store, token: string, grant: Grant, session: S.Session): (S.Store, S.Outcome) {
    var after := S.CallAlone(d, st, S.RefreshHgetRefresh(token, grant), session);
    (after.0, OutcomeOf(after.1))
  }

  function IssuerOn(d: Option<Time>, st: S.Store, env: Env): Issuer {
    Issuer(st, (token: string) => Recover(d, st, token, env.recover),
           (token: string, grant: Grant) => Renew(d, st, token, grant, env.refresh))
  }

  // ------------------------------------------------------------ straight line

  datatype Served = Served(store: S.Store, result: Result<BearerToken, TokenError>)

  /** The last phase: hand the validated grant to the issuer. */
  function Renewed(i: Issuer, state: State): Served {
    match state
    case Issuing(grant, token) =>
      var (st, outcome) := i.refresh(token, grant);
      if outcome.RefreshedOk? then
        Served(st, Ok(BearerToken(RefreshedToken(outcome.token, None, outcome.until), grant.scope)))
      else Served(st, Err(Primitive))
    case Failed(e) => Served(i.store, Err(e))
    case _ => Served(i.store, Err(Primitive))
  }

  /** Without a header, the client of the recovered grant must need no passphrase. */
  function CoAuthenticated(reg: ClientMap, i: Issuer, request: Request, state: State, env: Env): Served {
    match state
    case CoAuthenticating(grant, token) =>
      (match Check(reg, grant.client, None)
       case Ok(_) => Renewed(i, Validate(request.scope, grant, token, env.authenticatedAt))
       case Err(e) => Served(i.store, Err(FromRegistrar(e))))
    case _ => Renewed(i, state)
  }

  function Recovery(reg: ClientMap, i: Issuer, request: Request, authenticated: Option<string>, token: string,
                    env: Env): Served {
    match i.recover(token)
    case RefreshRecovered(_, grant) =>
      CoAuthenticated(reg, i, request, RecoveredRefresh(request.scope, authenticated, grant, token, env.recoveredAt),
                      env)
    case _ => Served(i.store, Err(Primitive))
  }

  /** The rest of the procedure, by the state that has been reached. */
  function From(reg: ClientMap, i: Issuer, request: Request, state: State, env: Env): Served {
    match state
    case Authenticating(client, pass, token) =>
      (match Check(reg, client, pass)
       case Ok(_) => Recovery(reg, i, request, Some(client), token, env)
       case Err(e) => Served(i.store, Err(FromRegistrar(e))))
    case Recovering(authenticated, token) => Recovery(reg, i, request, authenticated, token, env)
    case _ => CoAuthenticated(reg, i, request, state, env)
  }

  function Reference(reg: ClientMap, i: Issuer, request: Request, env: Env): Served {
    From(reg, i, request, Initialize(request), env)
  }

  // ------------------------------------------------------------------- loop

  datatype Requested =
    | Nothing
    | RenewToken(token: string, grant: Grant)
    | RecoverRefreshToken(token: string)
    | Authenticate(client: string, pass: Option<string>)

  function RequestedBy(state: State): Requested {
    match state
    case Authenticating(client, pass, _) => Authenticate(client, pass)
    case CoAuthenticating(grant, _) => Authenticate(grant.client, None)
    case Recovering(_, token) => RecoverRefreshToken(token)
    case Issuing(grant, token) => RenewToken(token, grant)
    case Failed(_) => Nothing
  }

  function Rank(state: State): nat {
    match state
    case Authenticating(_, _, _) => 4
    case Recovering(_, _) => 3
    case CoAuthenticating(_, _) => 2
    case Issuing(_, _) => 1
    case Failed(_) => 0
  }

  /** The calls made before each state; a header moves the client check to the front. */
  function CallsBefore(header: bool, state: State): seq<Call> {
    match state
    case Recovering(_, _) => if header then [CheckClient] else []
    case CoAuthenticating(_, _) => [RecoverGrant]
    case Issuing(_, _) => if header then [CheckClient, RecoverGrant] else [RecoverGrant, CheckClient]
    case _ => []
  }

  function Order(header: bool): seq<Call> {
    if header then [CheckClient, RecoverGrant, RefreshToken] else [RecoverGrant, CheckClient, RefreshToken]
  }

  predicate Reached(request: Request, state: State, requested: Requested, calls: seq<Call>) {
    && calls == CallsBefore(request.authorization.Some?, state)
    && (requested.Nothing? ==> state == Initialize(request))
    && (!requested.Nothing? ==> requested == RequestedBy(state))
    && (state.Recovering? ==> (state.authenticated.Some? <==> request.authorization.Some?))
    && (state.CoAuthenticating? ==> request.authorization.None?)
    && (state.Authenticating? ==> request.authorization.Some?)
    && (state.Failed? ==> requested.Nothing?)
  }

  /** What the primitive asked for contributes to the next round, or the error that ends the loop. */
  function Answer(reg: ClientMap, i: Issuer, request: Request, requested: Requested,
                  env: Env): Result<Input, TokenError> {
    match requested
    case Nothing => Ok(NoInput)
    case RenewToken(token, grant) =>
      var outcome := i.refresh(token, grant).1;
      if outcome.RefreshedOk? then Ok(Refreshed(RefreshedToken(outcome.token, None, outcome.until))) else Err(Primitive)
    case RecoverRefreshToken(token) =>
      var outcome := i.recover(token);
      if outcome.RefreshRecovered? then Ok(Recovered(request.scope, outcome.grant, env.recoveredAt)) else Err(Primitive)
    case Authenticate(client, pass) =>
      (match Check(reg, client, pass)
       case Ok(_) => Ok(Authenticated(request.scope, env.authenticatedAt))
       case Err(e) => Err(FromRegistrar(e)))
  }

  function StoreAfter(i: Issuer, requested: Requested): S.Store {
    if requested.RenewToken? then i.refresh(requested.token, requested.grant).0 else i.store
  }

  function CallFor(requested: Requested): seq<Call> {
    match requested
    case Nothing => []
    case RenewToken(_, _) => [RefreshToken]
    case RecoverRefreshToken(_) => [RecoverGrant]
    case Authenticate(_, _) => [CheckClient]
  }

  method Ask(reg: ClientMap, tokens: M.TokenMap, request: Request, requested: Requested, env: Env, ghost i: Issuer)
    returns (input: Result<Input, TokenError>)
    requires tokens.Valid() && Usable(env) && i == IssuerOn(tokens.duration, tokens.redis.Content(), env)
    modifies tokens.redis
    ensures tokens.Valid() && tokens.redis.Content() == StoreAfter(i, requested)
    ensures input == Answer(reg, i, request, requested, env)
  {
    input := Ok(NoInput);
    match requested {
      case Nothing =>
      case RenewToken(token, grant) =>
        var outcome := tokens.Refresh(token, grant, env.refresh);
        if !outcome.RefreshedOk? { return Err(Primitive); }
        input := Ok(Refreshed(RefreshedToken(outcome.token, None, outcome.until)));
      case RecoverRefreshToken(token) =>
        var outcome := tokens.RecoverRefresh(token, env.recover);
        if !outcome.RefreshRecovered? { return Err(Primitive); }
        input := Ok(Recovered(request.scope, outcome.grant, env.recoveredAt));
      case Authenticate(client, pass) =>
        var checked := Check(reg, client, pass);
        if checked.Err? { return Err(FromRegistrar(checked.error)); }
        input := Ok(Authenticated(request.scope, env.authenticatedAt));
    }
  }

  /** One round takes the loop closer to the answer of the straight-line procedure. */
  lemma RoundFits(reg: ClientMap, i: Issuer, request: Request, state: State, requested: Requested, calls: seq<Call>,
                  env: Env)
    requires Reached(request, state, requested, calls)
    ensures calls + CallFor(requested) <= Order(request.authorization.Some?)
    ensures requested.RenewToken? <==> RefreshToken in calls + CallFor(requested)
    ensures var answer := Answer(reg, i, request, requested, env);
            var whole := From(reg, i, request, state, env);
            if answer.Err? then whole == Served(StoreAfter(i, requested), Err(answer.error))
            else
              var (state', output) := Next(state, answer.value);
              if output.Error? then whole == Served(i.store, Err(output.error)) && !requested.RenewToken?
              else if output.Finished? then
                && whole == Served(StoreAfter(i, requested), Ok(output.bearer)) && requested.RenewToken?
                && calls + CallFor(requested) == Order(request.authorization.Some?)
              else
                && Reached(request, state', RequestedBy(state'), calls + CallFor(requested))
                && From(reg, i, request, state', env) == whole && output == OutputOf(state')
                && (Rank(state') < Rank(state) || (requested.Nothing? && state' == state
                                                   && !RequestedBy(state').Nothing?))
                && !requested.RenewToken?
  {
  }

  /**
   * The executor. It ends after a bounded number of rounds, asks each primitive at most once and the
   * issuer last, and serves the request as the straight-line procedure does.
   */
  method Execute(reg: ClientMap, tokens: M.TokenMap, request: Request, env: Env)
    returns (result: Result<BearerToken, TokenError>, calls: seq<Call>)
    requires tokens.Valid() && Usable(env)
    modifies tokens.redis
    ensures tokens.Valid()
    ensures Served(tokens.redis.Content(), result)
            == Reference(reg, IssuerOn(tokens.duration, old(tokens.redis.Content()), env), request, env)
    ensures calls <= Order(request.authorization.Some?)
    ensures RefreshToken !in calls ==> tokens.redis.Content() == old(tokens.redis.Content())
    ensures result.Ok? ==> calls == Order(request.authorization.Some?)
  {
    var machine := new Refresh(request);
    var requested := Nothing;
    calls := [];
    ghost var i := IssuerOn(tokens.duration, tokens.redis.Content(), env);
    while true
      invariant fresh(machine) && tokens.Valid() && tokens.redis.Content() == i.store
      invariant Reached(request, machine.state, requested, calls)
      invariant From(reg, i, request, machine.state, env) == Reference(reg, i, request, env)
      decreases Rank(machine.state), if requested.Nothing? then 1 else 0
    {
      RoundFits(reg, i, request, machine.state, requested, calls, env);
      calls := calls + CallFor(requested);
      var input := Ask(reg, tokens, request, requested, env, i);
      if input.Err? { return Err(input.error), calls; }
      var output := machine.Advance(input.value);
      match output {
        case Error(error) => return Err(error), calls;
        case Finished(bearer) => return Ok(bearer), calls;
        case AskRefresh(token, grant) => requested := RenewToken(token, grant);
        case RecoverRefresh(token) => requested := RecoverRefreshToken(token);
        case Unauthenticated(client, pass) => requested := Authenticate(client, pass);
      }
    }
  }

  // ------------------------------------------------ what a call does to a grant

  /** Halfway through refreshing `key` to `grant`, starting from `st0`: no other refresh entry moved. */
  predicate Underway(st0: S.Store, key: S.Tag, grant: Grant, st: S.Store, op: S.Op) {
    && st.refresh - {key} == st0.refresh - {key} && st.codes == st0.codes && st.codeUsage == st0.codeUsage
    && (S.IsRefresh(op) || op.Done?)
    && (S.IsRefresh(op) ==> op.key == key && SameButUntil(S.Target(op), grant))
    && (S.IsRefresh(op) && !op.RefreshHgetRefresh? ==> key in st0.refresh)
    && (key in st.refresh ==>
          key in st0.refresh && (st.refresh[key] == st0.refresh[key] || SameButUntil(st.refresh[key].grant, grant)))
    && (op.RefreshHsetRefresh? ==> op.token.access in st.access && st.access[op.token.access] == op.token)
    && (op.RefreshSetUsage? ==>
          && op.token.access in st.access && st.access[op.token.access] == op.token
          && key in st.refresh && st.refresh[key] == op.token)
    && (op.Done? && op.outcome.RefreshedOk? ==> Published(st, key, grant, op.outcome))
  }

  /** The new pair sits in both hashes. */
  predicate Published(st: S.Store, key: S.Tag, grant: Grant, o: S.Outcome)
    requires o.RefreshedOk?
  {
    && key in st.refresh && st.refresh[key].access == o.token && SameButUntil(st.refresh[key].grant, grant)
    && st.refresh[key].grant.until == o.until
    && o.token in st.access && st.access[o.token] == st.refresh[key]
  }

  lemma CommandStaysUnderway(d: Option<Time>, st0: S.Store, key: S.Tag, grant: Grant, st: S.Store, op: S.Op,
                             c: S.Choice)
    requires Underway(st0, key, grant, st, op) && S.IsRefresh(op)
    ensures var e := S.RefreshStep(d, st, op, c); Underway(st0, key, grant, e.store, e.op)
  {
  }

  lemma {:induction false} CallStaysUnderway(d: Option<Time>, st0: S.Store, key: S.Tag, grant: Grant,
                                             st: S.Store, op: S.Op, cs: seq<S.Choice>, i: nat)
    requires i <= |cs| && Underway(st0, key, grant, st, op)
    ensures var (st', op') := S.RunFrom(d, st, op, cs, i); Underway(st0, key, grant, st', op')
    decreases |cs| - i
  {
    if i < |cs| && !op.Done? {
      CommandStaysUnderway(d, st0, key, grant, st, op, cs[i]);
      var e := S.RefreshStep(d, st, op, cs[i]);
      CallStaysUnderway(d, st0, key, grant, e.store, e.op, cs, i + 1);
    }
  }

  lemma RecoverMeaning(d: Option<Time>, st: S.Store, token: string, env: Env)
    requires Usable(env) && Recover(d, st, token, env.recover).RefreshRecovered?
    ensures var o := Recover(d, st, token, env.recover);
            o.grant.Some? ==> token in st.refresh && o.grant.value == st.refresh[token].grant
  {
    if env.recover.connected {
      var c := env.recover.choices[0];
      var o := S.RefreshRecovered(token, S.GrantOf(S.Lookup(st.refresh, token, c.fault)));
      S.Unroll(d, st, S.RecoverRefreshHget(token), env.recover.choices, 0, S.Quiet(st, S.Done(o)));
    }
  }

  lemma RenewMeaning(d: Option<Time>, st: S.Store, token: string, grant: Grant, session: S.Session)
    ensures var (st', outcome) := Renew(d, st, token, grant, session);
            Underway(st, token, grant, st', S.Done(outcome))
  {
    if session.connected {
      CallStaysUnderway(d, st, token, grant, st, S.RefreshHgetRefresh(token, grant), session.choices, 0);
    }
  }

  /** The request was entitled to the entry under its refresh token. */
  predicate Entitled(reg: ClientMap, st: S.Store, request: Request) {
    && request.valid && request.grantType == Some("refresh_token") && request.refreshToken.Some?
    && request.refreshToken.value in st.refresh
    && RefreshAuthorized(reg, request, st.refresh[request.refreshToken.value].grant.client)
  }

  /** When the expiry is checked: on recovery with a header, on co-authentication without. */
  function LookedAt(request: Request, env: Env): Time {
    if request.authorization.Some? then env.recoveredAt else env.authenticatedAt
  }

  /** The stored grant is unexpired when it is looked at, and covers the scope asked for. */
  predicate Renewable(request: Request, g: Grant, env: Env) {
    && LookedAt(request, env) < g.until
    && (request.scope.Some? ==>
          Parse(request.scope.value).Ok? && Parse(request.scope.value).value.tokens <= g.scope.tokens)
  }

  lemma ValidateIff(request: Request, g: Grant, token: string, now: Time)
    ensures Validate(request.scope, g, token, now).Issuing? <==>
              now < g.until
              && (request.scope.Some? ==>
                    Parse(request.scope.value).Ok? && Parse(request.scope.value).value.tokens <= g.scope.tokens)
    ensures Validate(request.scope, g, token, now).Issuing? ==> Validate(request.scope, g, token, now).token == token
  {
    if request.scope.Some? && Parse(request.scope.value).Ok? {
      PartialCmpIsSubsetOrder(Parse(request.scope.value).value, g.scope);
    }
  }

  /** What a served request means, given the stored grant it worked on. */
  predicate Sound(reg: ClientMap, st: S.Store, request: Request, env: Env, s: Served) {
    && S.NothingWidens(st, s.store)
    && (s.store != st || s.result.Ok? ==>
          Entitled(reg, st, request) && Renewable(request, st.refresh[request.refreshToken.value].grant, env))
    && (s.result.Ok? ==>
          var b, r := s.result.value, request.refreshToken.value;
          && r in s.store.refresh && b.scope == s.store.refresh[r].grant.scope
          && b.token.token in s.store.access && s.store.access[b.token.token] == s.store.refresh[r]
          && b.token.until == s.store.refresh[r].grant.until)
  }

  lemma RenewedIsSound(reg: ClientMap, d: Option<Time>, st: S.Store, request: Request, env: Env, g: Grant,
                       token: string)
    requires Usable(env) && Entitled(reg, st, request) && request.refreshToken == Some(token)
    requires g == st.refresh[token].grant
    ensures Sound(reg, st, request, env, Renewed(IssuerOn(d, st, env),
                                                 Validate(request.scope, g, token, LookedAt(request, env))))
  {
    var now := LookedAt(request, env);
    var state := Validate(request.scope, g, token, now);
    ValidateIff(request, g, token, now);
    if state.Issuing? {
      ValidateNarrows(request.scope, g, token, now);
      RenewMeaning(d, st, token, state.grant, env.refresh);
      var after := Renew(d, st, token, state.grant, env.refresh).0;
      forall k | k in after.refresh ensures k in st.refresh && Narrows(after.refresh[k].grant, st.refresh[k].grant) {
        assert k == token || k in after.refresh - {token};
      }
    }
  }

  lemma RecoveryIsSound(reg: ClientMap, d: Option<Time>, st: S.Store, request: Request, authenticated: Option<string>,
                        token: string, env: Env)
    requires Usable(env) && request.valid && request.grantType == Some("refresh_token")
    requires request.refreshToken == Some(token)
    requires authenticated.Some? ==> request.authorization.Some? && RefreshAuthorized(reg, request, authenticated.value)
    requires authenticated.None? ==> request.authorization.None?
    ensures Sound(reg, st, request, env, Recovery(reg, IssuerOn(d, st, env), request, authenticated, token, env))
  {
    var o := Recover(d, st, token, env.recover);
    if o.RefreshRecovered? && o.grant.Some? {
      RecoverMeaning(d, st, token, env);
      var g := o.grant.value;
      if authenticated == Some(g.client) {
        RenewedIsSound(reg, d, st, request, env, g, token);
      } else if authenticated.None? && Check(reg, g.client, None).Ok? {
        CheckMeaning(reg, g.client, None);
        RenewedIsSound(reg, d, st, request, env, g, token);
      }
    }
  }

  /**
   * One request on its own, under any faults: nothing stored ever widens, the store changes only for
   * a request entitled to its refresh token whose grant is unexpired and covers the scope asked for,
   * and a returned token is the one now stored.
   */
  lemma ReferenceIsSound(reg: ClientMap, d: Option<Time>, st: S.Store, request: Request, env: Env)
    requires Usable(env)
    ensures Sound(reg, st, request, env, Reference(reg, IssuerOn(d, st, env), request, env))
  {
    match Initialize(request) {
      case Authenticating(client, pass, token) =>
        if Check(reg, client, pass).Ok? {
          CheckMeaning(reg, client, pass);
          RecoveryIsSound(reg, d, st, request, Some(client), token, env);
        }
      case Recovering(_, token) => RecoveryIsSound(reg, d, st, request, None, token, env);
      case _ =>
    }
  }

  function Serve(reg: ClientMap, d: Option<Time>, st: S.Store, jobs: seq<(Request, Env)>): S.Store
    decreases |jobs|
  {
    if jobs == [] then st
    else
      var (request, env) := jobs[0];
      Serve(reg, d, Reference(reg, IssuerOn(d, st, env), request, env).store, jobs[1..])
  }

  /** Section 6 of RFC 6749, along any chain of refresh requests served one after the other. */
  lemma {:induction false} ChainsOnlyNarrow(reg: ClientMap, d: Option<Time>, st: S.Store, jobs: seq<(Request, Env)>)
    requires forall j :: 0 <= j < |jobs| ==> Usable(jobs[j].1)
    ensures S.NothingWidens(st, Serve(reg, d, st, jobs))
    decreases |jobs|
  {
    if jobs != [] {
      var (request, env) := jobs[0];
      ReferenceIsSound(reg, d, st, request, env);
      ChainsOnlyNarrow(reg, d, Reference(reg, IssuerOn(d, st, env), request, env).store, jobs[1..]);
    }
  }

  /** Connected, no command failing, and the tagger answering with `a`. */
  function HealthyEnv(a: S.Tag, recoveredAt: Time, authenticatedAt: Time, refreshedAt: Time): Env {
    Env(S.Session(true, HealthyRun(1, 0, None, None, recoveredAt)),
        S.Session(true, HealthyRun(8, 2, Some(a), None, refreshedAt)), recoveredAt, authenticatedAt)
  }

  /** The grant that should come out: the scope asked for or the old one, valid for the duration set or a week. */
  function Renewal(d: Option<Time>, request: Request, g: Grant, now: Time, t: Time): Grant {
    g.(scope := if request.scope.Some? && Parse(request.scope.value).Ok? then Parse(request.scope.value).value
       else g.scope,
       until := if d.Some? then t + d.value else now + 7 * DAY)
  }

  /** What the last phase should come to: where the refresh cannot be completed its entry is lost. */
  function Expected(st: S.Store, token: string, renewal: Grant, a: S.Tag): Served
    requires token in st.refresh
  {
    if Completes(st, token, a) then
      Served(AfterRefresh(st, token, a, renewal),
             Ok(BearerToken(RefreshedToken(a, None, renewal.until), renewal.scope)))
    else Served(Abandoned(st, token, a, renewal), Err(Primitive))
  }

  lemma HealthyRenewed(d: Option<Time>, st: S.Store, request: Request, env: Env, a: S.Tag, token: string, now: Time,
                       t: Time)
    requires env == HealthyEnv(a, env.recoveredAt, env.authenticatedAt, t)
    requires K.StoreSelfKeyed(st) && token in st.refresh
    ensures var g := st.refresh[token].grant;
            var state := Validate(request.scope, g, token, now);
            Renewed(IssuerOn(d, st, env), state)
            == if state.Issuing? then Expected(st, token, Renewal(d, request, g, now, t), a)
               else if state.Failed? then Served(st, Err(state.error))
               else Served(st, Err(Primitive))
  {
    var state := Validate(request.scope, st.refresh[token].grant, token, now);
    ValidateIff(request, st.refresh[token].grant, token, now);
    if state.Issuing? { RefreshAnswers(d, st, token, state.grant, a, t); }
  }

  /** The grant under a token is looked at by the client it belongs to. */
  predicate Admitted(reg: ClientMap, request: Request, authenticated: Option<string>, g: Grant) {
    if authenticated.Some? then authenticated.value == g.client else Check(reg, g.client, None).Ok?
  }

  lemma HealthyRecovery(reg: ClientMap, d: Option<Time>, st: S.Store, request: Request, authenticated: Option<string>,
                        token: string, env: Env, a: S.Tag, t: Time)
    requires env == HealthyEnv(a, env.recoveredAt, env.authenticatedAt, t)
    requires authenticated.Some? <==> request.authorization.Some?
    ensures var served := Recovery(reg, IssuerOn(d, st, env), request, authenticated, token, env);
            if token !in st.refresh then served == Served(st, Err(Invalid(InvalidGrant)))
            else
              var g := st.refresh[token].grant;
              if Admitted(reg, request, authenticated, g) then
                served == Renewed(IssuerOn(d, st, env), Validate(request.scope, g, token, LookedAt(request, env)))
              else if authenticated.Some? then served == Served(st, Err(Invalid(InvalidGrant)))
              else served == Served(st, Err(FromRegistrar(Check(reg, g.client, None).error)))
  {
    RecoverAnswers(d, st, token, env.recoveredAt);
  }

  /**
   * When nothing fails, a refresh succeeds exactly for those entitled to it whose entry can be replaced: there
   * is a usage counter, its access entry is there, and the tag drawn is not in use by another entry. It comes
   * with the scope asked for and a new expiry, and both hashes hold the new token then.
   */
  lemma ServedIffEntitled(reg: ClientMap, d: Option<Time>, st: S.Store, request: Request, env: Env, a: S.Tag, t: Time)
    requires env == HealthyEnv(a, env.recoveredAt, env.authenticatedAt, t) && K.StoreSelfKeyed(st)
    ensures var served := Reference(reg, IssuerOn(d, st, env), request, env);
            && (served.result.Ok? <==>
                  && Entitled(reg, st, request) && Renewable(request, st.refresh[request.refreshToken.value].grant, env)
                  && Completes(st, request.refreshToken.value, a))
            && (served.result.Ok? ==>
                  var renewal := Renewal(d, request, st.refresh[request.refreshToken.value].grant,
                                         LookedAt(request, env), t);
                  && served.result.value == BearerToken(RefreshedToken(a, None, renewal.until), renewal.scope)
                  && served.store == AfterRefresh(st, request.refreshToken.value, a, renewal))
  {
    ReferenceIsSound(reg, d, st, request, env);
    if Entitled(reg, st, request) {
      var token := request.refreshToken.value;
      var g := st.refresh[token].grant;
      CheckMeaning(reg, g.client, if request.authorization.Some? then Some(request.authorization.value.1) else None);
      HealthyRecovery(reg, d, st, request, if request.authorization.Some? then Some(g.client) else None, token, env, a,
                      t);
      ValidateIff(request, g, token, LookedAt(request, env));
      HealthyRenewed(d, st, request, env, a, token, LookedAt(request, env), t);
    }
  }

  predicate Complete(request: Request) {
    request.valid && request.grantType == Some("refresh_token") && request.refreshToken.Some?
  }

  /** Whom the registrar turns away: the client of the header, or without one the client of the stored grant. */
  predicate TurnedAway(reg: ClientMap, st: S.Store, request: Request)
    requires Complete(request)
  {
    match request.authorization
    case Some((client, pass)) => Rejected(reg, client, Some(pass))
    case None =>
      && request.refreshToken.value in st.refresh
      && Rejected(reg, st.refresh[request.refreshToken.value].grant.client, None)
  }

  /** The header, if there is one, authenticates its client. */
  predicate HeaderAccepted(reg: ClientMap, request: Request) {
    match request.authorization
    case Some((client, pass)) => PassphraseAccepted(reg, client, pass)
    case None => true
  }

  /** The refresh token is unknown, belongs to another client than the header names, or its grant has expired. */
  predicate GrantAtFault(reg: ClientMap, st: S.Store, request: Request, env: Env)
    requires Complete(request)
  {
    || request.refreshToken.value !in st.refresh
    || (request.authorization.Some?
        && st.refresh[request.refreshToken.value].grant.client != request.authorization.value.0)
    || (Entitled(reg, st, request) && st.refresh[request.refreshToken.value].grant.until <= LookedAt(request, env))
  }

  /**
   * Section 5.2 of RFC 6749, when nothing fails: exactly which request gets which error; the scope is at fault
   * exactly if everything else is in order. An error changes the store exactly if a request
   * that would otherwise succeed finds no usage counter, no access entry, or draws a tag in use: it loses the
   * refresh token, and in the last case overwrites the entry under that tag.
   */
  lemma ErrorsIff(reg: ClientMap, d: Option<Time>, st: S.Store, request: Request, env: Env, a: S.Tag, t: Time)
    requires env == HealthyEnv(a, env.recoveredAt, env.authenticatedAt, t) && K.StoreSelfKeyed(st)
    ensures var served := Reference(reg, IssuerOn(d, st, env), request, env);
            && (served.result == Err(Unauthorized("basic")) <==> Complete(request) && TurnedAway(reg, st, request))
            && (served.result == Err(Invalid(InvalidRequest)) <==>
                  !request.valid || request.refreshToken.None? || request.grantType.None?)
            && (served.result == Err(Invalid(InvalidGrant)) <==>
                  Complete(request) && HeaderAccepted(reg, request) && GrantAtFault(reg, st, request, env))
            && (served.result == Err(Primitive) <==>
                  || (Complete(request) && !HeaderAccepted(reg, request) && !TurnedAway(reg, st, request))
                  || (&& Entitled(reg, st, request)
                      && Renewable(request, st.refresh[request.refreshToken.value].grant, env)
                      && !Completes(st, request.refreshToken.value, a)))
            && (served.result == Err(Invalid(InvalidScope)) <==>
                  && Entitled(reg, st, request) && LookedAt(request,
                                                            env) < st.refresh[request.refreshToken.value].grant.until
                  && !Renewable(request, st.refresh[request.refreshToken.value].grant, env))
            && (served.result == Err(Invalid(UnsupportedGrantType)) <==>
                  request.valid && request.refreshToken.Some? && request.grantType.Some?
                      && request.grantType.value != "refresh_token")
            && (served.result.Err? && served.store != st <==>
                  && Entitled(reg, st, request) && Renewable(request, st.refresh[request.refreshToken.value].grant, env)
                  && !Completes(st, request.refreshToken.value, a))
            && (served.result.Err? && served.store != st ==>
                  var g := st.refresh[request.refreshToken.value].grant;
                  served == Served(Abandoned(st, request.refreshToken.value, a,
                                             Renewal(d, request, g, LookedAt(request, env), t)), Err(Primitive)))
  {
    if Complete(request) {
      var token := request.refreshToken.value;
      var client := if request.authorization.Some? then Some(request.authorization.value.0) else None;
      if request.authorization.Some? { CheckMeaning(reg, client.value, Some(request.authorization.value.1)); }
      HealthyRecovery(reg, d, st, request, client, token, env, a, t);
      if token in st.refresh {
        var g := st.refresh[token].grant;
        CheckMeaning(reg, g.client, None);
        ValidateIff(request, g, token, LookedAt(request, env));
        HealthyRenewed(d, st, request, env, a, token, LookedAt(request, env), t);
        assert token !in Abandoned(st, token, a, Renewal(d, request, g, LookedAt(request, env), t)).refresh;
      }
    }
  }

  /**
   * Such a store is reached: an `issue` on the empty store dies before its last command. The refresh of its
   * token, entitled and without any failing command, then answers with an error and destroys the token.
   */
  lemma DiedIssueCostsTheRefreshToken(reg: ClientMap, d: Option<Time>, g: Grant, r: S.Tag, a: S.Tag, b: S.Tag,
                                      request: Request, env: Env, issuedAt: Time, t: Time)
    requires env == HealthyEnv(b, env.recoveredAt, env.authenticatedAt, t)
    requires Complete(request) && request.refreshToken == Some(r)
    requires RefreshAuthorized(reg, request, g.client) && Renewable(request, g, env)
    ensures var cs := HealthyRun(4, 0, Some(a), Some(r), issuedAt)[3 := S.Choice(S.Refused, None, None, issuedAt)];
            var st := S.RunAlone(d, S.EMPTY_STORE, S.IssueGetUsage(g), cs).0;
            var served := Reference(reg, IssuerOn(d, st, env), request, env);
            && r in st.refresh && Entitled(reg, st, request)
            && served.result == Err(Primitive) && r !in served.store.refresh
  {
    IssueDiesUncounted(d, g, a, r, issuedAt);
    var st := AfterIssue(S.EMPTY_STORE, a, r, g).(tokenUsage := None);
    ErrorsIff(reg, d, st, request, env, b, t);
  }

  /** A missing connection is reported as an internal error, on looking the token up as on renewing it. */
  lemma StoreFailuresAreInternal(reg: ClientMap, d: Option<Time>, st: S.Store, request: Request, env: Env)
    requires Usable(env) && Complete(request) && HeaderAccepted(reg, request)
    ensures var served := Reference(reg, IssuerOn(d, st, env), request, env);
            && (!env.recover.connected ==> served == Served(st, Err(Primitive)))
            && (&& env.recover.connected && env.recover.choices[0].fault.Healthy? && !env.refresh.connected
                && Entitled(reg, st, request)
                && Renewable(request, st.refresh[request.refreshToken.value].grant, env) ==>
                  served == Served(st, Err(Primitive)))
  {
    if request.authorization.Some? {
      CheckMeaning(reg, request.authorization.value.0, Some(request.authorization.value.1));
    }
    if env.recover.connected {
      var token := request.refreshToken.value;
      LookupUnderFaults(d, st, token, env.recover.choices[0]);
      assert env.recover.choices == [env.recover.choices[0]];
      if token in st.refresh {
        CheckMeaning(reg, st.refresh[token].grant.client, None);
        ValidateIff(request, st.refresh[token].grant, token, LookedAt(request, env));
      }
    }
  }
}
