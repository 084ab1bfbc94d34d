/**
 * Executing an access token request: the loop around the machine, the straight-line procedure it
 * amounts to, and what a served request means for the stores (code_grant/accesstoken.rs).
 */
module AccessTokenFlow {
  import opened Prelude
  import opened Grants
  import opened Registrars
  import opened TokenErrors
  import opened AccessTokenMachine
  import opened PkceAddons
  import opened FailureFree
  import opened FaultyCalls
  import S = Stores
  import M = TokenMaps

  datatype Call = CheckClient | ExtractCode | ExtendGrant | IssueToken

  /** What the outside decides while one request is served. */
  datatype Env = Env(extract: S.Session, issue: S.Session, recoveredAt: Time, issuedAt: Time)

  predicate Usable(env: Env) {
    |env.extract.choices| == 2 && |env.issue.choices| == 4
  }

  /** The fixed parts of the endpoint. */
  datatype Setup = Setup(reg: ClientMap, digest: Digest, addons: Addons)

  /** How the stores would answer each call, made on its own. */
  datatype Primitives = Primitives(
    extract: (S.Store, string) -> (S.Store, S.Outcome),
    issue: (S.Store, Grant) -> (S.Store, S.Outcome))

  function OutcomeOf(after: (S.Store, S.Op)): (S.Store, S.Outcome) {
    (after.0, if after.1.Done? then after.1.outcome else S.Failed)
  }

  function ExtractAlone(st: S.Store, code: string, session: S.Session): (S.Store, S.Outcome) {
    OutcomeOf(S.CallAlone(None, st, S.ExtractHget(code), session))
  }

  function IssueAlone(d: Option<Time>, st: S.Store, grant: Grant, now: Time, session: S.Session): (S.Store, S.Outcome) {
    OutcomeOf(S.CallAlone(d, st, S.BeginIssue(d, now, grant), session))
  }

  function PrimitivesOf(d: Option<Time>, env: Env): Primitives {
    Primitives((st: S.Store, code: string) => ExtractAlone(st, code, env.extract),
               (st: S.Store, grant: Grant) => IssueAlone(d, st, grant, env.issuedAt, env.issue))
  }

  // ------------------------------------------------------------ straight line

  datatype Served = Served(store: S.Store, result: Result<BearerToken, TokenError>)

  function Issuing(p: Primitives, st: S.Store, grant: Grant): Served {
    var (st', o) := p.issue(st, grant);
    if o.IssuedOk? then Served(st', Ok(BearerToken(IssuedToken(o.token, Some(o.refresh), o.until), grant.scope)))
    else Served(st', Err(Primitive))
  }

  function Extension(s: Setup, p: Primitives, st: S.Store, request: Request, saved: Grant, data: Extensions): Served {
    match ExtendToken(s.digest, s.addons, request, data)
    case Some(e) => Issuing(p, st, saved.(extensions := e))
    case None => Served(st, Err(Invalid(InvalidRequest)))
  }

  function Recovery(s: Setup, p: Primitives, st: S.Store, request: Request, client: string, code: string, redirect: Url,
                    env: Env): Served {
    var (st', o) := p.extract(st, code);
    if o.Extracted? then
      match RecoveredGrant(client, redirect, o.grant, env.recoveredAt)
      case Extend(saved, data) => Extension(s, p, st', request, saved, data)
      case Failed(e) => Served(st', Err(e))
      case _ => Served(st', Err(Primitive))
    else Served(st', Err(Primitive))
  }

  /** The rest of the procedure, by the state that has been reached and the store at that point. */
  function From(s: Setup, p: Primitives, st: S.Store, request: Request, state: State, env: Env): Served {
    match state
    case Authenticate(client, pass, code, redirect) =>
      (match Check(s.reg, client, pass)
       case Ok(_) => Recovery(s, p, st, request, client, code, redirect, env)
       case Err(e) => Served(st, Err(FromRegistrar(e))))
    case Recover(client, code, redirect) => Recovery(s, p, st, request, client, code, redirect, env)
    case Extend(saved, data) => Extension(s, p, st, request, saved, data)
    case Issue(grant) => Issuing(p, st, grant)
    case Failed(e) => Served(st, Err(e))
  }

  function Reference(s: Setup, p: Primitives, st: S.Store, request: Request, env: Env): Served {
    From(s, p, st, request, Validate(s.reg.parseUrl, request), env)
  }

  // ------------------------------------------------------------------- loop

  function Rank(state: State): nat {
    match state
    case Authenticate(_, _, _, _) => 4
    case Recover(_, _, _) => 3
    case Extend(_, _) => 2
    case Issue(_) => 1
    case Failed(_) => 0
  }

  datatype Requested =
    | Nothing
    | AuthenticateClient(client: string, pass: Option<string>)
    | RecoverCode(code: string)
    | ExtendWith(extensions: Extensions)
    | IssueFor(grant: Grant)

  function RequestedBy(state: State): Requested {
    match state
    case Authenticate(client, pass, _, _) => AuthenticateClient(client, pass)
    case Recover(_, code, _) => RecoverCode(code)
    case Extend(_, extensions) => ExtendWith(extensions)
    case Issue(grant) => IssueFor(grant)
    case Failed(_) => Nothing
  }

  const ORDER := [CheckClient, ExtractCode, ExtendGrant, IssueToken]

  predicate Reached(s: Setup, request: Request, state: State, requested: Requested, calls: seq<Call>) {
    && (requested.Nothing? ==> state == Validate(s.reg.parseUrl, request))
    && (!requested.Nothing? ==> requested == RequestedBy(state))
    && (state.Failed? ==> requested.Nothing?)
    && calls == if state.Failed? then [] else ORDER[..4 - Rank(state)]
  }

  /** What the primitive asked for contributes to the next round, or the error that ends the loop. */
  function Answer(s: Setup, p: Primitives, st: S.Store, request: Request, requested: Requested,
                  env: Env): Result<Input, TokenError> {
    match requested
    case Nothing => Ok(NoInput)
    case AuthenticateClient(client, pass) =>
      (match Check(s.reg, client, pass)
       case Ok(_) => Ok(Authenticated)
       case Err(e) => Err(FromRegistrar(e)))
    case RecoverCode(code) =>
      var o := p.extract(st, code).1;
      if o.Extracted? then Ok(Recovered(o.grant, env.recoveredAt)) else Err(Primitive)
    case ExtendWith(extensions) =>
      (match ExtendToken(s.digest, s.addons, request, extensions)
       case Some(e) => Ok(Extended(e))
       case None => Err(Invalid(InvalidRequest)))
    case IssueFor(grant) =>
      var o := p.issue(st, grant).1;
      if o.IssuedOk? then Ok(Issued(IssuedToken(o.token, Some(o.refresh), o.until))) else Err(Primitive)
  }

  function StoreAfter(p: Primitives, st: S.Store, requested: Requested): S.Store {
    match requested
    case RecoverCode(code) => p.extract(st, code).0
    case IssueFor(grant) => p.issue(st, grant).0
    case _ => st
  }

  function CallFor(requested: Requested): seq<Call> {
    match requested
    case Nothing => []
    case AuthenticateClient(_, _) => [CheckClient]
    case RecoverCode(_) => [ExtractCode]
    case ExtendWith(_) => [ExtendGrant]
    case IssueFor(_) => [IssueToken]
  }

  /** The codes of one map and the tokens of the other, which may live on one server or on two. */
  ghost function Joint(codes: M.AuthMap, tokens: M.TokenMap): S.Store
    reads codes.redis, tokens.redis
  {
    S.Store(tokens.redis.access, tokens.redis.refresh, tokens.redis.tokenUsage, codes.redis.codes,
            codes.redis.codeUsage)
  }

  function CodesOf(from: S.Store, to: S.Store): S.Store {
    to.(codes := from.codes, codeUsage := from.codeUsage)
  }

  lemma CodeStepFrame(st: S.Store, other: S.Store, op: S.Op, c: S.Choice)
    requires S.IsCode(op)
    ensures var e, e' := S.CodeStep(st, op, c), S.CodeStep(CodesOf(st, other), op, c);
            && e'.op == e.op && e'.store == CodesOf(e.store, other)
            && (S.IsCode(e.op) || e.op.Done?) && SameTokens(st, e.store)
  {
  }

  lemma NothingRuns(d: Option<Time>, st: S.Store, op: S.Op, cs: seq<S.Choice>, i: nat)
    requires i <= |cs| && (i == |cs| || op.Done?)
    ensures S.RunFrom(d, st, op, cs, i) == (st, op)
  {
  }

  lemma CodeCommandFrame(st: S.Store, other: S.Store, op: S.Op, cs: seq<S.Choice>, i: nat)
      returns (st': S.Store, op': S.Op)
    requires i < |cs| && S.IsCode(op)
    ensures S.RunFrom(None, st, op, cs, i) == S.RunFrom(None, st', op', cs, i + 1)
    ensures S.RunFrom(None, CodesOf(st, other), op, cs, i) == S.RunFrom(None, CodesOf(st', other), op', cs, i + 1)
    ensures (S.IsCode(op') || op'.Done?) && SameTokens(st, st')
  {
    CodeStepFrame(st, other, op, cs[i]);
    var e, e' := S.CodeStep(st, op, cs[i]), S.CodeStep(CodesOf(st, other), op, cs[i]);
    S.UnrollCode(None, st, op, cs, i, e.store, e.op);
    S.UnrollCode(None, CodesOf(st, other), op, cs, i, e'.store, e'.op);
    st', op' := e.store, e.op;
  }

  /** A run on codes, seen from both sides: the same end, the same codes, and untouched tokens. */
  predicate Framed(st: S.Store, other: S.Store, after: (S.Store, S.Op), after': (S.Store, S.Op)) {
    after'.0 == CodesOf(after.0, other) && after'.1 == after.1 && SameTokens(st, after.0)
  }

  lemma FramedOn(st: S.Store, st': S.Store, other: S.Store, after: (S.Store, S.Op), after': (S.Store, S.Op))
    requires SameTokens(st, st') && Framed(st', other, after, after')
    ensures Framed(st, other, after, after')
  {
  }

  /** A call on codes neither sees nor touches the tokens, */
  lemma {:induction false} CodeCallFrame(st: S.Store, other: S.Store, op: S.Op, cs: seq<S.Choice>, i: nat)
    requires i <= |cs| && (S.IsCode(op) || op.Done?)
    ensures Framed(st, other, S.RunFrom(None, st, op, cs, i), S.RunFrom(None, CodesOf(st, other), op, cs, i))
    decreases |cs| - i
  {
    if i == |cs| || op.Done? {
      NothingRuns(None, st, op, cs, i);
      NothingRuns(None, CodesOf(st, other), op, cs, i);
      return;
    }
    var st', op' := CodeCommandFrame(st, other, op, cs, i);
    CodeCallFrame(st', other, op', cs, i + 1);
    FramedOn(st, st', other, S.RunFrom(None, st', op', cs, i + 1),
             S.RunFrom(None, CodesOf(st', other), op', cs, i + 1));
  }

  /** and an issue neither sees nor touches the codes. */
  lemma {:induction false} IssueFrame(d: Option<Time>, st: S.Store, other: S.Store, op: S.Op, cs: seq<S.Choice>, i: nat)
    requires i <= |cs| && (S.IsIssue(op) || op.Done?)
    ensures var (after, end) := S.RunFrom(d, st, op, cs, i);
            S.RunFrom(d, CodesOf(other, st), op, cs, i) == (CodesOf(other, after), end)
    decreases |cs| - i
  {
    if i < |cs| && !op.Done? {
      var e := S.IssueStep(st, op, cs[i]);
      var e' := S.IssueStep(CodesOf(other, st), op, cs[i]);
      assert e'.op == e.op && e'.store == CodesOf(other, e.store) && (S.IsIssue(e.op) || e.op.Done?);
      IssueFrame(d, e.store, other, e.op, cs, i + 1);
    }
  }

  method AskExtract(codes: M.AuthMap, tokens: M.TokenMap, code: string, env: Env) returns (outcome: S.Outcome)
    requires Usable(env)
    modifies codes.redis`codes
    ensures (Joint(codes, tokens), outcome) == ExtractAlone(old(Joint(codes, tokens)), code, env.extract)
  {
    ghost var before, joint := codes.redis.Content(), Joint(codes, tokens);
    outcome := codes.Extract(code, env.extract);
    CodeCallFrame(before, joint, S.ExtractHget(code), env.extract.choices, 0);
    assert CodesOf(before, joint) == joint;
  }

  method AskIssue(codes: M.AuthMap, tokens: M.TokenMap, grant: Grant, env: Env) returns (outcome: S.Outcome)
    requires Usable(env) && tokens.Valid()
    modifies tokens.redis`access, tokens.redis`refresh, tokens.redis`tokenUsage
    ensures tokens.Valid()
    ensures (Joint(codes, tokens), outcome)
            == IssueAlone(tokens.duration, old(Joint(codes, tokens)), grant, env.issuedAt, env.issue)
  {
    ghost var before, joint := tokens.redis.Content(), Joint(codes, tokens);
    outcome := tokens.Issue(grant, env.issuedAt, env.issue);
    IssueFrame(tokens.duration, before, joint, S.BeginIssue(tokens.duration, env.issuedAt, grant), env.issue.choices,
               0);
    assert CodesOf(joint, before) == joint;
  }

  method Ask(s: Setup, addons: AddonList, codes: M.AuthMap, tokens: M.TokenMap, request: Request, requested: Requested,
             env: Env, ghost p: Primitives)
    returns (input: Result<Input, TokenError>)
    requires tokens.Valid() && Usable(env) && addons.Value() == s.addons
    requires p == PrimitivesOf(tokens.duration, env)
    modifies codes.redis, tokens.redis
    ensures Joint(codes, tokens) == StoreAfter(p, old(Joint(codes, tokens)), requested)
    ensures input == Answer(s, p, old(Joint(codes, tokens)), request, requested, env)
    ensures tokens.Valid()
  {
    input := Ok(NoInput);
    match requested {
      case Nothing =>
      case AuthenticateClient(client, pass) =>
        var checked := Check(s.reg, client, pass);
        if checked.Err? { return Err(FromRegistrar(checked.error)); }
        input := Ok(Authenticated);
      case RecoverCode(code) =>
        var outcome := AskExtract(codes, tokens, code, env);
        if !outcome.Extracted? { return Err(Primitive); }
        input := Ok(Recovered(outcome.grant, env.recoveredAt));
      case ExtendWith(extensions) =>
        var extended := addons.RunToken(s.digest, request, extensions);
        if extended.None? { return Err(Invalid(InvalidRequest)); }
        input := Ok(Extended(extended.value));
      case IssueFor(grant) =>
        var outcome := AskIssue(codes, tokens, grant, env);
        if !outcome.IssuedOk? { return Err(Primitive); }
        input := Ok(Issued(IssuedToken(outcome.token, Some(outcome.refresh), outcome.until)));
    }
  }

  /** One round takes the loop closer to the answer of the straight-line procedure. */
  lemma RoundFits(s: Setup, p: Primitives, st: S.Store, request: Request, state: State, requested: Requested,
                  calls: seq<Call>, env: Env)
    requires Reached(s, request, state, requested, calls)
    ensures calls + CallFor(requested) <= ORDER
    ensures var answer := Answer(s, p, st, request, requested, env);
            var whole := From(s, p, st, request, state, env);
            var st' := StoreAfter(p, st, requested);
            if answer.Err? then whole == Served(st', Err(answer.error))
            else
              var (state', output) := Next(state, answer.value);
              if output.Error? then whole == Served(st', Err(output.error))
              else if output.Finished? then
                whole == Served(st', Ok(output.bearer)) && calls + CallFor(requested) == ORDER
              else
                && Reached(s, request, state', RequestedBy(state'), calls + CallFor(requested))
                && From(s, p, st', request, state', env) == whole && output == OutputOf(state')
                && (Rank(state') < Rank(state) || (requested.Nothing? && state' == state
                                                   && !RequestedBy(state').Nothing?))
  {
    assert |ORDER| == 4;
  }

  /**
   * The executor. It ends after a bounded number of rounds, asks each primitive at most once and in a
   * fixed order with the issuer last, and serves the request as the straight-line procedure does.
   */
  method Execute(s: Setup, addons: AddonList, codes: M.AuthMap, tokens: M.TokenMap, request: Request, env: Env)
    returns (result: Result<BearerToken, TokenError>, calls: seq<Call>)
    requires tokens.Valid() && Usable(env) && addons.Value() == s.addons
    modifies codes.redis, tokens.redis
    ensures tokens.Valid()
    ensures Served(Joint(codes, tokens), result)
            == Reference(s, PrimitivesOf(tokens.duration, env), old(Joint(codes, tokens)), request, env)
    ensures calls <= ORDER
    ensures result.Ok? ==> calls == ORDER
  {
    var machine := new AccessToken(s.reg.parseUrl, request);
    var requested := Nothing;
    calls := [];
    ghost var st0 := Joint(codes, tokens);
    ghost var p := PrimitivesOf(tokens.duration, env);
    while true
      invariant fresh(machine) && tokens.Valid() && addons.Value() == s.addons
      invariant Reached(s, request, machine.state, requested, calls)
      invariant From(s, p, Joint(codes, tokens), request, machine.state, env) == Reference(s, p, st0, request, env)
      decreases Rank(machine.state), if requested.Nothing? then 1 else 0
    {
      RoundFits(s, p, Joint(codes, tokens), request, machine.state, requested, calls, env);
      calls := calls + CallFor(requested);
      var input := Ask(s, addons, codes, tokens, request, requested, env, p);
      if input.Err? { return Err(input.error), calls; }
      var output := machine.Advance(input.value);
      match output {
        case Error(error) => return Err(error), calls;
        case Finished(bearer) => return Ok(bearer), calls;
        case AskAuthenticate(client, pass) => requested := AuthenticateClient(client, pass);
        case AskRecover(code) => requested := RecoverCode(code);
        case AskExtend(extensions) => requested := ExtendWith(extensions);
        case AskIssue(grant) => requested := IssueFor(grant);
      }
    }
  }

  // ------------------------------------------------ what a served request means

  predicate SameTokens(a: S.Store, b: S.Store) {
    a.access == b.access && a.refresh == b.refresh && a.tokenUsage == b.tokenUsage
  }

  lemma ExtractMeaning(st: S.Store, code: string, session: S.Session)
    requires |session.choices| == 2
    ensures var (st', o) := ExtractAlone(st, code, session);
            && SameTokens(st, st') && (st'.codes == st.codes || st'.codes == st.codes - {code})
            && (o.Extracted? && o.grant.Some? ==>
                  code in st.codes && o.grant.value == st.codes[code] && st'.codes == st.codes - {code})
  {
    if session.connected {
      var cs := session.choices;
      var e := S.CodeStep(st, S.ExtractHget(code), cs[0]);
      S.UnrollCode(None, st, S.ExtractHget(code), cs, 0, e.store, e.op);
      if e.op.ExtractHdel? {
        var e' := S.CodeStep(st, e.op, cs[1]);
        S.UnrollCode(None, st, e.op, cs, 1, e'.store, e'.op);
      }
    }
  }

  /** Both hashes hold the new token under its two tags. */
  predicate Published(st: S.Store, g: Grant, o: S.Outcome)
    requires o.IssuedOk?
  {
    && o.token in st.access && st.access[o.token] == S.Token(o.token, Some(o.refresh), g)
    && o.refresh in st.refresh && st.refresh[o.refresh] == st.access[o.token]
    && o.until == g.until
  }

  predicate Underway(st0: S.Store, g: Grant, st: S.Store, op: S.Op) {
    && st.codes == st0.codes && st.codeUsage == st0.codeUsage && (S.IsIssue(op) || op.Done?)
    && (op.IssueGetUsage? ==> op.grant == g)
    && (S.IsIssue(op) && !op.IssueGetUsage? ==> op.token == S.Token(op.token.access, Some(op.key), g))
    && (op.IssueHsetRefresh? || op.IssueSetUsage? ==>
            op.token.access in st.access && st.access[op.token.access] == op.token)
    && (op.IssueSetUsage? ==> op.key in st.refresh && st.refresh[op.key] == op.token)
    && (op.Done? && op.outcome.IssuedOk? ==> Published(st, g, op.outcome))
  }

  lemma CommandStaysUnderway(st0: S.Store, g: Grant, st: S.Store, op: S.Op, c: S.Choice)
    requires Underway(st0, g, st, op) && S.IsIssue(op)
    ensures var e := S.IssueStep(st, op, c); Underway(st0, g, e.store, e.op)
  {
  }

  lemma {:induction false} CallStaysUnderway(d: Option<Time>, st0: S.Store, g: Grant, st: S.Store, op: S.Op,
                                             cs: seq<S.Choice>, i: nat)
    requires i <= |cs| && Underway(st0, g, st, op)
    ensures var (st', op') := S.RunFrom(d, st, op, cs, i); Underway(st0, g, st', op')
    decreases |cs| - i
  {
    if i < |cs| && !op.Done? {
      CommandStaysUnderway(st0, g, st, op, cs[i]);
      var e := S.IssueStep(st, op, cs[i]);
      CallStaysUnderway(d, st0, g, e.store, e.op, cs, i + 1);
    }
  }

  lemma IssueMeaning(d: Option<Time>, st: S.Store, grant: Grant, now: Time, session: S.Session)
    ensures var (st', o) := IssueAlone(d, st, grant, now, session);
            Underway(st, S.SetDuration(d, now, grant), st', S.Done(o))
  {
    if session.connected {
      CallStaysUnderway(d, st, S.SetDuration(d, now, grant), st, S.BeginIssue(d, now, grant), session.choices, 0);
    }
  }

  /** The request may have a token on the strength of the stored grant `g`. */
  predicate Deserves(s: Setup, request: Request, g: Grant, now: Time) {
    && request.valid && request.grantType == Some("authorization_code")
    && RedeemAuthorized(s.reg, request, g.client)
    && request.redirectUri.Some? && s.reg.parseUrl(request.redirectUri.value) == Some(g.redirect)
    && now <= g.until
    && ExtendToken(s.digest, s.addons, request, g.extensions).Some?
  }

  predicate Sound(s: Setup, st: S.Store, request: Request, served: Served, now: Time) {
    && served.store.codes.Keys <= st.codes.Keys
        && (forall k :: k in served.store.codes ==> served.store.codes[k] == st.codes[k])
    && (!SameTokens(st, served.store) || served.result.Ok? ==>
          && request.code.Some? && request.code.value in st.codes && request.code.value !in served.store.codes
          && Deserves(s, request, st.codes[request.code.value], now))
    && (served.result.Ok? ==>
          var g, b := st.codes[request.code.value], served.result.value;
          && b.scope == g.scope && b.token.refresh.Some?
          && b.token.token in served.store.access
          && var t := served.store.access[b.token.token];
          && SameAuthorization(t.grant, g) && t.grant.until == b.token.until
          && Some(t.grant.extensions) == ExtendToken(s.digest, s.addons, request, g.extensions)
          && t.refresh == b.token.refresh && b.token.refresh.value in served.store.refresh
          && served.store.refresh[b.token.refresh.value] == t)
  }

  lemma RecoveryIsSound(s: Setup, d: Option<Time>, st: S.Store, request: Request, client: string, code: string,
                        redirect: Url, env: Env)
    requires Usable(env) && request.valid && request.grantType == Some("authorization_code")
    requires request.code == Some(code)
    requires RedeemAuthorized(s.reg, request, client)
    requires request.redirectUri.Some? && s.reg.parseUrl(request.redirectUri.value) == Some(redirect)
    ensures Sound(s, st, request, Recovery(s, PrimitivesOf(d, env), st, request, client, code, redirect, env),
                  env.recoveredAt)
  {
    ExtractMeaning(st, code, env.extract);
    var (st', o) := ExtractAlone(st, code, env.extract);
    if o.Extracted? && o.grant.Some? {
      var state := RecoveredGrant(client, redirect, o.grant, env.recoveredAt);
      if state.Extend? {
        var e := ExtendToken(s.digest, s.addons, request, state.extensions);
        if e.Some? {
          IssueMeaning(d, st', state.saved.(extensions := e.value), env.issuedAt, env.issue);
        }
      }
    }
  }

  /**
   * One request on its own, under any faults: codes only disappear; the token hashes change only for a
   * client that deserves a token on the strength of the code's grant, and the code is gone then; a
   * returned pair is the one stored, for the same owner, client, redirect url and scope.
   */
  lemma ReferenceIsSound(s: Setup, d: Option<Time>, st: S.Store, request: Request, env: Env)
    requires Usable(env)
    ensures Sound(s, st, request, Reference(s, PrimitivesOf(d, env), st, request, env), env.recoveredAt)
  {
    var state := Validate(s.reg.parseUrl, request);
    CredentialsMeaning(s.reg, request);
    if state.Authenticate? && Check(s.reg, state.client, state.passdata).Ok? {
      RecoveryIsSound(s, d, st, request, state.client, state.code, state.redirect, env);
    }
  }

  /** Connected, no command failing, and the tagger answering with `a` and `r`. */
  function HealthyEnv(a: S.Tag, r: S.Tag, recoveredAt: Time, issuedAt: Time): Env {
    Env(S.Session(true, HealthyRun(2, 0, None, None, recoveredAt)),
        S.Session(true, HealthyRun(4, 0, Some(a), Some(r), issuedAt)), recoveredAt, issuedAt)
  }

  lemma HealthyExtract(st: S.Store, code: string, now: Time)
    ensures ExtractAlone(st, code, S.Session(true, HealthyRun(2, 0, None, None, now)))
            == (st.(codes := st.codes - {code}), S.Extracted(code, if code in st.codes then Some(st.codes[code])
                                                             else None))
  {
    if code in st.codes {
      ExtractSucceeds(st, code, now);
    } else {
      S.UnrollCode(None, st, S.ExtractHget(code), HealthyRun(2, 0, None, None, now), 0, st,
                   S.Done(S.Extracted(code, None)));
      assert st.codes - {code} == st.codes;
    }
  }

  lemma HealthyRecovery(s: Setup, d: Option<Time>, st: S.Store, request: Request, code: string, env: Env, a: S.Tag,
                        r: S.Tag)
    requires code in st.codes && Deserves(s, request, st.codes[code], env.recoveredAt)
    requires env == HealthyEnv(a, r, env.recoveredAt, env.issuedAt)
    ensures var g := st.codes[code];
            var served := Recovery(s, PrimitivesOf(d, env), st, request, g.client, code, g.redirect, env);
            && (served.result.Ok? <==> a !in st.access && r !in st.refresh)
            && (served.result.Ok? ==>
                  && served.result.value.token.token == a && served.result.value.token.refresh == Some(r)
                  && served.result.value.token.until == if d.Some? then env.issuedAt + d.value else g.until)
  {
    var g := st.codes[code];
    HealthyExtract(st, code, env.recoveredAt);
    var granted := g.(extensions := ExtendToken(s.digest, s.addons, request, g.extensions).value);
    IssueAnswers(d, st.(codes := st.codes - {code}), S.SetDuration(d, env.issuedAt, granted), a, r, env.issuedAt);
    var state := RecoveredGrant(g.client, g.redirect, Some(g), env.recoveredAt);
    assert state == Extend(g.(extensions := map[]), g.extensions);
    assert state.saved.(extensions := granted.extensions) == granted;
  }

  /**
   * When nothing fails, a token is returned exactly to those who deserve it while the tags drawn are not in
   * use. It expires after the issuer's duration if one is set, else with the grant.
   */
  lemma ServedIffDeserved(s: Setup, d: Option<Time>, st: S.Store, request: Request, env: Env, a: S.Tag, r: S.Tag)
    requires env == HealthyEnv(a, r, env.recoveredAt, env.issuedAt)
    ensures var result := Reference(s, PrimitivesOf(d, env), st, request, env).result;
            && (result.Ok? <==> request.code.Some? && request.code.value in st.codes
                                && Deserves(s, request, st.codes[request.code.value], env.recoveredAt)
                                && a !in st.access && r !in st.refresh)
            && (result.Ok? ==> result.value.token
                               == IssuedToken(a, Some(r), if d.Some? then env.issuedAt + d.value
                                              else st.codes[request.code.value].until))
  {
    ReferenceIsSound(s, d, st, request, env);
    CredentialsMeaning(s.reg, request);
    if request.code.Some? && request.code.value in st.codes
        && Deserves(s, request, st.codes[request.code.value], env.recoveredAt) {
      HealthyRecovery(s, d, st, request, request.code.value, env, a, r);
    }
  }

  // -------------------------------------------------------- the ways to fail

  /** Everything required is there, and the client is named in one place. */
  predicate Complete(s: Setup, request: Request) {
    && request.valid && request.grantType == Some("authorization_code") && NamedOnce(request) && request.code.Some?
    && request.redirectUri.Some? && s.reg.parseUrl(request.redirectUri.value).Some?
  }

  /** The stored grant is for someone else, for another redirect url, or too old. */
  predicate Mismatch(s: Setup, request: Request, g: Grant, now: Time)
    requires Complete(s, request)
  {
    g.client != Named(request) || Some(g.redirect) != s.reg.parseUrl(request.redirectUri.value) || g.until < now
  }

  /** The code belongs to this client and url, and is not too old. */
  predicate Fits(s: Setup, st: S.Store, request: Request, now: Time)
    requires Complete(s, request)
  {
    request.code.value in st.codes && !Mismatch(s, request, st.codes[request.code.value], now)
  }

  /** Past the code, only the extensions or a tag in use can make it fail, and codes are not touched any more. */
  lemma ExtensionErrors(s: Setup, d: Option<Time>, st: S.Store, request: Request, saved: Grant, data: Extensions,
                        env: Env, a: S.Tag, r: S.Tag)
    requires env == HealthyEnv(a, r, env.recoveredAt, env.issuedAt)
    ensures var served := Extension(s, PrimitivesOf(d, env), st, request, saved, data);
            && (served.result.Err? ==>
                  served.result.error == Invalid(InvalidRequest) || served.result.error == Primitive)
            && (served.result == Err(Primitive) <==>
                  ExtendToken(s.digest, s.addons, request, data).Some? && (a in st.access || r in st.refresh))
            && served.store.codes == st.codes
  {
    var e := ExtendToken(s.digest, s.addons, request, data);
    if e.Some? {
      var granted := saved.(extensions := e.value);
      IssueAnswers(d, st, S.SetDuration(d, env.issuedAt, granted), a, r, env.issuedAt);
    }
  }

  lemma RecoveryErrors(s: Setup, d: Option<Time>, st: S.Store, request: Request, client: string, code: string,
                       redirect: Url,
                       env: Env, a: S.Tag, r: S.Tag)
    requires env == HealthyEnv(a, r, env.recoveredAt, env.issuedAt)
    ensures var served := Recovery(s, PrimitivesOf(d, env), st, request, client, code, redirect, env);
            var fits := code in st.codes && st.codes[code].client == client && st.codes[code].redirect == redirect
                        && env.recoveredAt <= st.codes[code].until;
            var extended := code in st.codes
                && ExtendToken(s.digest, s.addons, request, st.codes[code].extensions).Some?;
            && (served.result == Err(Invalid(InvalidGrant)) <==> code in st.codes && !fits)
            && (served.result == Err(Invalid(InvalidRequest)) <==> code !in st.codes || (fits && !extended))
            && (served.result == Err(Primitive) <==> fits && extended && (a in st.access || r in st.refresh))
            && (served.result.Err? ==>
                  || served.result.error == Invalid(InvalidGrant) || served.result.error == Invalid(InvalidRequest)
                  || served.result.error == Primitive)
            && served.store.codes == st.codes - {code}
  {
    HealthyExtract(st, code, env.recoveredAt);
    if code in st.codes {
      var state := RecoveredGrant(client, redirect, Some(st.codes[code]), env.recoveredAt);
      if state.Extend? {
        ExtensionErrors(s, d, st.(codes := st.codes - {code}), request, state.saved, state.extensions, env, a, r);
      }
    }
  }

  /** Something required is missing or does not parse, or the client is named twice or not at all. */
  predicate Malformed(s: Setup, request: Request) {
    || !request.valid || request.grantType.None?
    || (request.grantType == Some("authorization_code") && !Complete(s, request))
  }

  /**
   * Section 5.2 of RFC 6749, when nothing fails: exactly which request gets which error. A client that is not
   * authenticated changes nothing; an authenticated one spends the code even if it is turned away.
   */
  lemma ErrorsIff(s: Setup, d: Option<Time>, st: S.Store, request: Request, env: Env, a: S.Tag, r: S.Tag)
    requires env == HealthyEnv(a, r, env.recoveredAt, env.issuedAt)
    ensures var served := Reference(s, PrimitivesOf(d, env), st, request, env);
            var complete := Complete(s, request);
            var authenticated := complete && RedeemAuthorized(s.reg, request, Named(request));
            var fits := authenticated && Fits(s, st, request, env.recoveredAt);
            var extended := fits && ExtendToken(s.digest, s.addons, request,
                                                st.codes[request.code.value].extensions).Some?;
            && (served.result == Err(Unauthorized("basic")) <==>
                  complete && Rejected(s.reg, Named(request), PassphraseOf(request)))
            && (served.result == Err(Invalid(InvalidGrant)) <==>
                  authenticated && request.code.value in st.codes && !fits)
            && (served.result == Err(Invalid(UnsupportedGrantType)) <==>
                  request.valid && request.grantType.Some? && request.grantType.value != "authorization_code")
            && (served.result == Err(Invalid(InvalidRequest)) <==>
                  || Malformed(s, request) || (authenticated && request.code.value !in st.codes)
                  || (fits && !extended))
            && (served.result == Err(Primitive) <==>
                  || (complete && !authenticated && !Rejected(s.reg, Named(request), PassphraseOf(request)))
                  || (extended && (a in st.access || r in st.refresh)))
            && (!authenticated ==> served.store == st)
            && (authenticated ==> served.store.codes == st.codes - {request.code.value})
  {
    CredentialsMeaning(s.reg, request);
    if Complete(s, request) {
      var (client, pass) := ClientOf(request).value;
      if Check(s.reg, client, pass).Ok? {
        var redirect := s.reg.parseUrl(request.redirectUri.value).value;
        RecoveryErrors(s, d, st, request, client, request.code.value, redirect, env, a, r);
      }
    }
  }

  /** Naming the client in the header and in the body is an invalid request, and changes nothing, whatever fails. */
  lemma NamedTwiceIsInvalid(s: Setup, d: Option<Time>, st: S.Store, request: Request, env: Env)
    requires request.authorization.Some? && request.clientId.Some?
    requires request.valid ==> request.grantType == Some("authorization_code")
    ensures Reference(s, PrimitivesOf(d, env), st, request, env) == Served(st, Err(Invalid(InvalidRequest)))
  {
  }

  /**
   * Failures of the store are reported as internal errors, and cost what was already done: without a connection
   * nothing, with an unanswered removal perhaps the code, and without a connection for the token the code.
   */
  lemma StoreFailuresAreInternal(s: Setup, d: Option<Time>, st: S.Store, request: Request, env: Env)
    requires Usable(env) && Complete(s, request) && RedeemAuthorized(s.reg, request, Named(request))
    ensures var served := Reference(s, PrimitivesOf(d, env), st, request, env);
            var code, left := request.code.value, st.(codes := st.codes - {request.code.value});
            var get, del := env.extract.choices[0].fault, env.extract.choices[1].fault;
            && (!env.extract.connected ==> served == Served(st, Err(Primitive)))
            && (env.extract.connected && get.Healthy? && code in st.codes && !del.Healthy? ==>
                  served == Served(if del.Executed() then left else st, Err(Primitive)))
            && (&& env.extract.connected && get.Healthy? && code in st.codes && del.Healthy?
                && !env.issue.connected && Deserves(s, request, st.codes[code], env.recoveredAt) ==>
                  served == Served(left, Err(Primitive)))
  {
    CredentialsMeaning(s.reg, request);
    if env.extract.connected {
      var cs, code := env.extract.choices, request.code.value;
      ExtractUnderFaults(None, st, code, cs[0], cs[1]);
      assert cs == [cs[0], cs[1]];
    }
  }
}
