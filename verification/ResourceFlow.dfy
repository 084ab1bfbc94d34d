/**
 * Guarding a resource: the loop around the machine, and exactly which requests it lets through
 * (code_grant/resource.rs).
 */
module ResourceFlow {
  import opened Prelude
  import opened Scopes
  import opened Grants
  import opened ResourceMachine
  import opened FailureFree
  import S = Stores
  import M = TokenMaps

  datatype Call = ReadRequest | ReadScopes | RecoverGrant

  function RecoverAlone(d: Option<Time>, st: S.Store, token: string, session: S.Session): S.Outcome {
    var op := S.CallAlone(d, st, S.RecoverTokenHget(token), session).1;
    if op.Done? then op.outcome else S.Failed
  }

  function Recoverer(d: Option<Time>, st: S.Store, session: S.Session): string -> S.Outcome {
    (token: string) => RecoverAlone(d, st, token, session)
  }

  /** The phases written down one after the other; `recover` is the issuer's answer for each token. */
  function Reference(recover: string -> S.Outcome, scopes: seq<Scope>, request: Request,
                     now: Time): Result<Grant, ResourceError> {
    match Validate(request)
    case Internalized(token) => Recovery(recover, scopes, token, now)
    case Failed(e) => Err(e)
    case _ => Err(PrimitiveError)
  }

  function Recovery(recover: string -> S.Outcome, scopes: seq<Scope>, token: string,
                    now: Time): Result<Grant, ResourceError> {
    match recover(token)
    case TokenRecovered(grant) => CheckRecovered(grant, scopes, now)
    case _ => Err(PrimitiveError)
  }

  datatype Requested = Nothing | Ask | AskScopes | AskGrant(token: string)

  function Rank(state: State): nat {
    match state
    case Initial => 3
    case Internalized(_) => 2
    case Recovering(_, _) => 1
    case Failed(_) => 0
  }

  const ORDER := [ReadRequest, ReadScopes, RecoverGrant]

  predicate Reached(request: Request, scopes: seq<Scope>, state: State, requested: Requested, calls: seq<Call>) {
    match requested
    case Nothing => state == Initial && calls == []
    case Ask => state == Initial && calls == []
    case AskScopes => state.Internalized? && state == Validate(request) && calls == ORDER[..1]
    case AskGrant(token) =>
      state == Recovering(token, scopes) && Validate(request) == Internalized(token) && calls == ORDER[..2]
  }

  /** The executor: bounded, each question at most once, the token looked up last. */
  method Protect(tokens: M.TokenMap, scopes: seq<Scope>, request: Request, session: S.Session, now: Time)
    returns (result: Result<Grant, ResourceError>, calls: seq<Call>)
    requires |session.choices| == 1
    ensures result == Reference(Recoverer(tokens.duration, tokens.redis.Content(), session), scopes, request, now)
    ensures calls <= ORDER && (result.Ok? ==> calls == ORDER)
  {
    var machine := new Resource();
    var requested := Nothing;
    calls := [];
    while true
      invariant fresh(machine) && Reached(request, scopes, machine.state, requested, calls)
      decreases Rank(machine.state), if requested.Nothing? then 1 else 0
    {
      var input := NoInput;
      match requested {
        case Nothing =>
        case Ask =>
          calls := calls + [ReadRequest];
          input := GotRequest(request);
        case AskScopes =>
          calls := calls + [ReadScopes];
          input := Scopes(scopes);
        case AskGrant(token) =>
          calls := calls + [RecoverGrant];
          var outcome := tokens.RecoverToken(token, session);
          if !outcome.TokenRecovered? { return Err(PrimitiveError), calls; }
          input := Recovered(outcome.grant, now);
      }
      var output := machine.Advance(input);
      match output {
        case Error(error) => return Err(error), calls;
        case Finished(grant) => return Ok(grant), calls;
        case GetRequest => requested := Ask;
        case DetermineScopes => requested := AskScopes;
        case AskRecover(token) => requested := AskGrant(token);
      }
    }
  }

  /**
   * Section 2.1 of RFC 6750: when the lookup does not fail, access is granted exactly to a bearer token
   * that is stored, unexpired, and whose scope the coded comparison allows; the grant is the stored one.
   */
  lemma AccessIff(d: Option<Time>, st: S.Store, scopes: seq<Scope>, request: Request, now: Time, t: Time)
    ensures var r := Reference(Recoverer(d, st, S.Session(true, HealthyRun(1, 0, None, None, t))), scopes, request,
                               now);
            && (r.Ok? <==>
                  && request.valid && request.token.Some? && BEARER_START <= request.token.value
                  && request.token.value[|BEARER_START|..] in st.access
                  && var g := st.access[request.token.value[|BEARER_START|..]].grant;
                  now <= g.until && CodedAllows(g.scope, scopes))
            && (r.Ok? ==> r.value == st.access[request.token.value[|BEARER_START|..]].grant)
  {
    if request.valid && request.token.Some? && BEARER_START <= request.token.value {
      RecoverAnswers(d, st, request.token.value[|BEARER_START|..], t);
    }
  }

  /** Whatever fails on the way, no grant is handed out that is not stored, unexpired and allowed. */
  lemma AccessOnlyIf(d: Option<Time>, st: S.Store, scopes: seq<Scope>, request: Request, session: S.Session, now: Time)
    requires |session.choices| == 1
    requires Reference(Recoverer(d, st, session), scopes, request, now).Ok?
    ensures var g := Reference(Recoverer(d, st, session), scopes, request, now).value;
            && now <= g.until && CodedAllows(g.scope, scopes)
            && exists token :: token in st.access && st.access[token].grant == g
                && request.token == Some(BEARER_START + token)
  {
    var token := request.token.value[|BEARER_START|..];
    assert request.token.value == BEARER_START + token;
    var o := S.TokenRecovered(S.GrantOf(S.Lookup(st.access, token, session.choices[0].fault)));
    S.Unroll(d, st, S.RecoverTokenHget(token), session.choices, 0, S.Quiet(st, S.Done(o)));
  }

  /** The text after the scheme, if the request is valid and its scheme is `Bearer`. */
  function BearerToken(request: Request): Option<string> {
    if request.valid && request.token.Some? && |request.token.value| >= 7 && request.token.value[..7] == "Bearer " then
      Some(request.token.value[7..])
    else None
  }

  /** The grant that the lookup of the token yields; a failing lookup yields none. */
  function Found(st: S.Store, key: string, session: S.Session): Option<Grant>
    requires |session.choices| == 1
  {
    if session.choices[0].fault.Healthy? && key in st.access then Some(st.access[key].grant) else None
  }

  predicate Covered(g: Grant, scopes: seq<Scope>) {
    exists i :: 0 <= i < |scopes| && g.scope.tokens <= scopes[i].tokens
  }

  /**
   * Section 3 of RFC 6750: exactly which request gets which answer, under any fault. Without a connection a
   * bearer request gets the generic error; the scope in the answer is the first one of the resource.
   */
  lemma ErrorsIff(d: Option<Time>, st: S.Store, scopes: seq<Scope>, request: Request, session: S.Session, now: Time)
    requires |session.choices| == 1
    ensures var r := Reference(Recoverer(d, st, session), scopes, request, now);
            var first := if |scopes| == 0 then None else Some(scopes[0]);
            match BearerToken(request)
            case None =>
              && (r == Err(NoAuthentication) <==> request.valid && request.token.None?)
              && (r == Err(InvalidRequest) <==> !request.valid || request.token.Some?)
            case Some(key) =>
              if !session.connected then r == Err(PrimitiveError)
              else
                match Found(st, key, session)
                case None => r == Err(AccessDenied(InvalidRequestCode, first))
                case Some(g) =>
                  && (r == Err(AccessDenied(InvalidToken, None)) <==> g.until < now)
                  && (r == Err(AccessDenied(InsufficientScope, first)) <==> now <= g.until && !Covered(g, scopes))
                  && (r == Ok(g) <==> now <= g.until && Covered(g, scopes))
  {
    assert request.token.Some? ==> ("Bearer " <= request.token.value <==>
                                    |request.token.value| >= 7 && request.token.value[..7] == "Bearer ");
    var token := BearerToken(request);
    if token.Some? && session.connected {
      var o := S.TokenRecovered(S.GrantOf(S.Lookup(st.access, token.value, session.choices[0].fault)));
      S.Unroll(d, st, S.RecoverTokenHget(token.value), session.choices, 0, S.Quiet(st, S.Done(o)));
      var g := Found(st, token.value, session);
      assert o.grant == g;
      if g.Some? { CoveredIff(g.value, scopes); }
    }
  }

  lemma CoveredIff(g: Grant, scopes: seq<Scope>)
    ensures CodedAllows(g.scope, scopes) <==> Covered(g, scopes)
  {
    forall i | 0 <= i < |scopes| ensures AllowAccess(g.scope, scopes[i]) <==> g.scope.tokens <= scopes[i].tokens {
      PartialCmpIsSubsetOrder(g.scope, scopes[i]);
    }
  }

  lemma PresentedGrantIsChecked(d: Option<Time>, st: S.Store, key: string, scopes: seq<Scope>, now: Time, t: Time)
    requires key in st.access
    ensures var ask := Recoverer(d, st, S.Session(true, HealthyRun(1, 0, None, None, t)));
            Reference(ask, scopes, Request(true, Some(BEARER_START + key)), now)
            == CheckRecovered(Some(st.access[key].grant), scopes, now)
  {
    assert (BEARER_START + key)[|BEARER_START|..] == key;
    RecoverAnswers(d, st, key, t);
  }

  lemma ReversedComparison(g: Grant, small: Scope, large: Scope, now: Time)
    requires small.tokens < large.tokens && now <= g.until
    ensures g.scope == large ==>
              CheckRecovered(Some(g), [small], now) == Err(AccessDenied(InsufficientScope, Some(small)))
    ensures g.scope == small ==> CheckRecovered(Some(g), [large], now) == Ok(g)
  {
    PartialCmpIsSubsetOrder(large, small);
    PartialCmpIsSubsetOrder(small, large);
    assert !CodedAllows(large, [small]) && AllowAccess(small, [large][0]);
  }

  /**
   * Where the coded comparison departs from the documented one: of two unexpired tokens for a resource that
   * asks for `small`, the one with strictly more scope is refused, and for a resource that asks for `large`
   * the one with strictly less is let in.
   */
  lemma ComparisonIsReversed(d: Option<Time>, st: S.Store, key: string, small: Scope, large: Scope, now: Time, t: Time)
    requires small.tokens < large.tokens && key in st.access && now <= st.access[key].grant.until
    ensures var ask := Recoverer(d, st, S.Session(true, HealthyRun(1, 0, None, None, t)));
            var request := Request(true, Some(BEARER_START + key));
            var g := st.access[key].grant;
            && (g.scope == large ==>
                  Reference(ask, [small], request, now) == Err(AccessDenied(InsufficientScope, Some(small))))
            && (g.scope == small ==> Reference(ask, [large], request, now) == Ok(g))
  {
    PresentedGrantIsChecked(d, st, key, [small], now, t);
    PresentedGrantIsChecked(d, st, key, [large], now, t);
    ReversedComparison(st.access[key].grant, small, large, now);
  }
}
