/** The state machine behind the refresh endpoint (code_grant/refresh.rs). */
module RefreshMachine {
  import opened Prelude
  import opened Scopes
  import opened Grants
  import opened Registrars
  import opened TokenErrors

  datatype Request = Request(
    valid: bool,
    refreshToken: Option<string>,
    scope: Option<string>,
    grantType: Option<string>,
    authorization: Option<(string, string)>)

  /** The answer of the issuer. */
  datatype RefreshedToken = RefreshedToken(token: string, refresh: Option<string>, until: Time)

  datatype BearerToken = BearerToken(token: RefreshedToken, scope: Scope)

  datatype State =
    | Authenticating(client: string, passdata: Option<string>, token: string)
    | Recovering(authenticated: Option<string>, token: string)
    | CoAuthenticating(grant: Grant, token: string)
    | Issuing(grant: Grant, token: string)
    | Failed(error: TokenError)

  /** `now` is the clock reading used while the input is processed. */
  datatype Input =
    | Authenticated(scope: Option<string>, now: Time)
    | Recovered(scope: Option<string>, grant: Option<Grant>, now: Time)
    | Refreshed(token: RefreshedToken)
    | NoInput

  datatype Output =
    | Unauthenticated(client: string, pass: Option<string>)
    | RecoverRefresh(token: string)
    | AskRefresh(token: string, grant: Grant)
    | Finished(bearer: BearerToken)
    | Error(error: TokenError)

  /**
   * Section 6 of RFC 6749: the request presented a passphrase accepted for this very client, or
   * presented none and the client is registered as public.
   */
  predicate RefreshAuthorized(reg: ClientMap, request: Request, client: string) {
    match request.authorization
    case Some((id, pass)) => id == client && PassphraseAccepted(reg, client, pass)
    case None => IsPublic(reg, client)
  }

  // ------------------------------------------------------------- transitions

  function Initialize(request: Request): State {
    if !request.valid then Failed(Invalid(InvalidRequest))
    else if request.refreshToken.None? then Failed(Invalid(InvalidRequest))
    else if request.grantType.None? then Failed(Invalid(InvalidRequest))
    else if request.grantType.value != "refresh_token" then Failed(Invalid(UnsupportedGrantType))
    else
      match request.authorization
      case Some((client, pass)) => Authenticating(client, Some(pass), request.refreshToken.value)
      case None => Recovering(None, request.refreshToken.value)
  }

  function Validate(scope: Option<string>, grant: Grant, token: string, now: Time): State {
    if grant.until <= now then Failed(Invalid(InvalidGrant))
    else
      match scope
      case None => Issuing(grant.(until := now + 7 * DAY), token)
      case Some(text) =>
        match Parse(text)
        case Err(_) => Failed(Invalid(InvalidScope))
        case Ok(wanted) =>
          if PriviledgedTo(grant.scope, wanted) then Issuing(grant.(scope := wanted, until := now + 7 * DAY), token)
          else Failed(Invalid(InvalidScope))
  }

  /** Validation never widens anything. */
  lemma ValidateNarrows(scope: Option<string>, g: Grant, token: string, now: Time)
    requires Validate(scope, g, token, now).Issuing?
    ensures var st := Validate(scope, g, token, now); st.token == token && Narrows(st.grant, g)
  {
    if scope.Some? { PartialCmpIsSubsetOrder(Parse(scope.value).value, g.scope); }
  }

  function RecoveredRefresh(scope: Option<string>, authenticated: Option<string>, grant: Option<Grant>,
                            token: string, now: Time): State
  {
    match grant
    case None => Failed(Invalid(InvalidGrant))
    case Some(g) =>
      match authenticated
      case Some(client) => if g.client != client then Failed(Invalid(InvalidGrant)) else Validate(scope, g, token, now)
      case None => CoAuthenticating(g, token)
  }

  function OutputOf(state: State): Output {
    match state
    case Authenticating(client, pass, _) => Unauthenticated(client, pass)
    case CoAuthenticating(grant, _) => Unauthenticated(grant.client, None)
    case Recovering(_, token) => RecoverRefresh(token)
    case Issuing(grant, token) => AskRefresh(token, grant)
    case Failed(error) => Error(error)
  }

  /** The next state, and whether this input finishes the flow with a bearer token. */
  function Next(state: State, input: Input): (State, Output) {
    match (state, input)
    case (Failed(error), _) => (state, Error(error))
    case (Authenticating(client, _, token), Authenticated(_, _)) =>
      var s := Recovering(Some(client), token); (s, OutputOf(s))
    case (Recovering(authenticated, token), Recovered(scope, grant, now)) =>
      var s := RecoveredRefresh(scope, authenticated, grant, token, now); (s, OutputOf(s))
    case (CoAuthenticating(grant, token), Authenticated(scope, now)) =>
      var s := Validate(scope, grant, token, now); (s, OutputOf(s))
    case (Issuing(grant, _), Refreshed(token)) => (Failed(Primitive), Finished(BearerToken(token, grant.scope)))
    case (Authenticating(_, _, _), NoInput) => (state, OutputOf(state))
    case (Recovering(_, _), NoInput) => (state, OutputOf(state))
    case _ => (Failed(Primitive), Error(Primitive))
  }

  /** The machine as an object: `advance` takes the state out and puts the next one in. */
  class Refresh {
    var state: State

    constructor (request: Request)
      ensures state == Initialize(request)
    {
      state := Initialize(request);
    }

    method Take() returns (current: State)
      modifies this
      ensures current == old(state) && state == Failed(Primitive)
    {
      current := state;
      state := Failed(Primitive);
    }

    method Advance(input: Input) returns (output: Output)
      modifies this
      ensures (state, output) == Next(old(state), input)
    {
      var current := Take();
      match (current, input) {
        case (Failed(error), _) =>
          state := Failed(error);
        case (Authenticating(client, _, token), Authenticated(_, _)) =>
          state := Recovering(Some(client), token);
        case (Recovering(authenticated, token), Recovered(scope, grant, now)) =>
          state := RecoveredRefresh(scope, authenticated, grant, token, now);
        case (CoAuthenticating(grant, token), Authenticated(scope, now)) =>
          state := Validate(scope, grant, token, now);
        case (Issuing(grant, _), Refreshed(token)) =>
          return Finished(BearerToken(token, grant.scope));
        case (Authenticating(_, _, _), NoInput) =>
          state := current;
        case (Recovering(_, _), NoInput) =>
          state := current;
        case _ =>
      }
      output := OutputOf(state);
    }
  }

  // ------------------------------------------------------------------- words

  function After(state: State, word: seq<Input>): State {
    if word == [] then state else Next(After(state, word[..|word| - 1]), word[|word| - 1]).0
  }

  function LastOutput(state: State, word: seq<Input>): Output
    requires word != []
  {
    Next(After(state, word[..|word| - 1]), word[|word| - 1]).1
  }

  predicate Idle(word: seq<Input>) {
    forall i :: 0 <= i < |word| ==> word[i].NoInput?
  }

  /** Idle inputs, one authentication, idle inputs. */
  predicate AuthenticatedWord(word: seq<Input>) {
    exists i :: 0 <= i < |word| && Idle(word[..i]) && word[i].Authenticated? && Idle(word[i + 1..])
  }

  lemma {:induction false} WaitingForAuthentication(s: State, word: seq<Input>)
    requires s.Authenticating?
    ensures After(s, word).Authenticating? <==> Idle(word)
    ensures After(s, word).Authenticating? ==> After(s, word) == s
  {
    if word != [] {
      var front := word[..|word| - 1];
      WaitingForAuthentication(s, front);
      assert forall i :: 0 <= i < |front| ==> front[i] == word[i];
    }
  }

  lemma AuthenticatedWordGrows(front: seq<Input>, last: Input)
    requires (AuthenticatedWord(front) && last.NoInput?) || (Idle(front) && last.Authenticated?)
    ensures AuthenticatedWord(front + [last])
  {
    var word := front + [last];
    if last.NoInput? {
      var i :| 0 <= i < |front| && Idle(front[..i]) && front[i].Authenticated? && Idle(front[i + 1..]);
      assert word[..i] == front[..i];
      assert word[i + 1..] == front[i + 1..] + [last];
    } else {
      assert word[..|front|] == front && word[|front| + 1..] == [];
    }
  }

  lemma IdleParts(v: seq<Input>, w: seq<Input>)
    requires Idle(v + w)
    ensures Idle(v) && Idle(w)
  {
    assert forall i :: 0 <= i < |v| ==> v[i] == (v + w)[i];
    assert forall i :: 0 <= i < |w| ==> w[i] == (v + w)[|v| + i];
  }

  lemma AuthenticatedWordShrinks(front: seq<Input>, last: Input)
    requires AuthenticatedWord(front + [last])
    ensures (AuthenticatedWord(front) && last.NoInput?) || (Idle(front) && last.Authenticated?)
  {
    var word := front + [last];
    var i :| 0 <= i < |word| && Idle(word[..i]) && word[i].Authenticated? && Idle(word[i + 1..]);
    if i < |front| {
      assert word[i + 1..] == front[i + 1..] + [last];
      IdleParts(front[i + 1..], [last]);
      assert front[..i] == word[..i] && front[i] == word[i] && [last][0] == last;
    } else {
      assert word[..i] == front;
    }
  }

  lemma AuthenticatedWordByLast(word: seq<Input>)
    requires word != []
    ensures AuthenticatedWord(word) <==>
              || (AuthenticatedWord(word[..|word| - 1]) && word[|word| - 1].NoInput?)
              || (Idle(word[..|word| - 1]) && word[|word| - 1].Authenticated?)
  {
    var front, last := word[..|word| - 1], word[|word| - 1];
    assert word == front + [last];
    if AuthenticatedWord(word) { AuthenticatedWordShrinks(front, last); }
    if (AuthenticatedWord(front) && last.NoInput?) || (Idle(front) && last.Authenticated?) {
      AuthenticatedWordGrows(front, last);
    }
  }

  lemma {:induction false} WaitingForRecovery(s: State, word: seq<Input>)
    requires s.Authenticating?
    ensures After(s, word).Recovering? <==> AuthenticatedWord(word)
    ensures After(s, word).Recovering? ==> After(s, word) == Recovering(Some(s.client), s.token)
  {
    if word != [] {
      WaitingForAuthentication(s, word[..|word| - 1]);
      WaitingForRecovery(s, word[..|word| - 1]);
      AuthenticatedWordByLast(word);
    }
  }

  lemma {:induction false} WaitingUnauthenticated(s: State, word: seq<Input>)
    requires s.Recovering? && s.authenticated.None?
    ensures After(s, word).Recovering? <==> Idle(word)
    ensures After(s, word).Recovering? ==> After(s, word) == s
    ensures !After(s, word).Authenticating?
  {
    if word != [] {
      var front := word[..|word| - 1];
      WaitingUnauthenticated(s, front);
      assert forall i :: 0 <= i < |front| ==> front[i] == word[i];
    }
  }

  /** An input that recovers a grant of the authenticated client, if it validates. */
  function FromHeader(s: State, recovered: Input): Option<Grant> {
    if s.Authenticating? && recovered.Recovered? && recovered.grant.Some?
        && recovered.grant.value.client == s.client then
      var v := Validate(recovered.scope, recovered.grant.value, s.token, recovered.now);
      if v.Issuing? then Some(v.grant) else None
    else None
  }

  /** A recovered grant whose client is then authenticated without passphrase, if it validates. */
  function FromCoAuthentication(s: State, recovered: Input, authenticated: Input): Option<Grant> {
    if s.Recovering? && recovered.Recovered? && recovered.grant.Some? && authenticated.Authenticated? then
      var v := Validate(authenticated.scope, recovered.grant.value, s.token, authenticated.now);
      if v.Issuing? then Some(v.grant) else None
    else None
  }

  /**
   * The grant to be refreshed after `word`. With a header: idle*, Authenticated, idle*, Recovered.
   * Without: idle*, Recovered, Authenticated. No idle input is allowed after Recovered.
   */
  function GrantToRefresh(s: State, word: seq<Input>): Option<Grant> {
    var n := |word|;
    if s.Authenticating? && n >= 1 && AuthenticatedWord(word[..n - 1]) then FromHeader(s, word[n - 1])
    else if s.Recovering? && s.authenticated.None? && n >= 2 && Idle(word[..n - 2]) then
      FromCoAuthentication(s, word[n - 2], word[n - 1])
    else None
  }

  /** The words that end in success: one answer of the issuer right after a grant to refresh. */
  predicate SuccessWord(s: State, word: seq<Input>) {
    && word != [] && word[|word| - 1].Refreshed?
    && GrantToRefresh(s, word[..|word| - 1]).Some?
  }

  /** Before any state, which states the machine can have been in. */
  lemma Predecessors(s: State, input: Input)
    ensures Next(s, input).0.Issuing? ==>
              (s.Recovering? && input.Recovered?) || (s.CoAuthenticating? && input.Authenticated?)
    ensures Next(s, input).0.CoAuthenticating? ==> s.Recovering? && s.authenticated.None? && input.Recovered?
    ensures Next(s, input).1.Finished? <==> s.Issuing? && input.Refreshed?
  {
  }

  lemma {:induction false} NoCoAuthenticationAfterHeader(s: State, word: seq<Input>)
    requires s.Authenticating?
    ensures !After(s, word).CoAuthenticating?
  {
    if word != [] {
      var front := word[..|word| - 1];
      Predecessors(After(s, front), word[|word| - 1]);
      WaitingForRecovery(s, front);
    }
  }

  lemma IssuingAfterHeader(s: State, word: seq<Input>)
    requires s.Authenticating?
    ensures After(s, word).Issuing? <==> GrantToRefresh(s, word).Some?
    ensures After(s, word).Issuing? ==> After(s, word) == Issuing(GrantToRefresh(s, word).value, s.token)
  {
    if word != [] {
      var front := word[..|word| - 1];
      Predecessors(After(s, front), word[|word| - 1]);
      WaitingForRecovery(s, front);
      NoCoAuthenticationAfterHeader(s, front);
    }
  }

  /** Without a header, co-authentication is reached right after recovering. */
  lemma CoAuthenticatingWords(s: State, word: seq<Input>)
    requires s.Recovering? && s.authenticated.None?
    ensures After(s, word).CoAuthenticating? <==>
              word != [] && Idle(word[..|word| - 1]) && word[|word| - 1].Recovered? && word[|word| - 1].grant.Some?
    ensures After(s, word).CoAuthenticating? ==>
              After(s, word) == CoAuthenticating(word[|word| - 1].grant.value, s.token)
  {
    if word != [] {
      var front := word[..|word| - 1];
      Predecessors(After(s, front), word[|word| - 1]);
      WaitingUnauthenticated(s, front);
    }
  }

  lemma IssuingWithoutHeader(s: State, word: seq<Input>)
    requires s.Recovering? && s.authenticated.None?
    ensures After(s, word).Issuing? <==> GrantToRefresh(s, word).Some?
    ensures After(s, word).Issuing? ==> After(s, word) == Issuing(GrantToRefresh(s, word).value, s.token)
  {
    if word != [] {
      var n := |word| - 1;
      var front := word[..n];
      Predecessors(After(s, front), word[n]);
      WaitingUnauthenticated(s, front);
      CoAuthenticatingWords(s, front);
      if n >= 1 { assert front[..n - 1] == word[..n - 1]; }
    }
  }

  /** Exactly the success words finish with a bearer token, which carries the validated grant's scope. */
  lemma FinishedIffSuccessWord(request: Request, word: seq<Input>)
    requires word != []
    ensures var s := Initialize(request);
            && (LastOutput(s, word).Finished? <==> SuccessWord(s, word))
            && (SuccessWord(s, word) ==>
                  LastOutput(s, word).bearer
                  == BearerToken(word[|word| - 1].token, GrantToRefresh(s, word[..|word| - 1]).value.scope))
  {
    var s := Initialize(request);
    var front := word[..|word| - 1];
    Predecessors(After(s, front), word[|word| - 1]);
    if s.Failed? {
      ErrorsRepeat(s, front);
    } else if s.Authenticating? {
      IssuingAfterHeader(s, front);
    } else {
      IssuingWithoutHeader(s, front);
    }
  }

  /** A reported error is the state from then on, and every later output repeats it. */
  lemma {:induction false} ErrorsRepeat(s: State, word: seq<Input>)
    requires s.Failed?
    ensures After(s, word) == s
    ensures word != [] ==> LastOutput(s, word) == Error(s.error)
  {
    if word != [] { ErrorsRepeat(s, word[..|word| - 1]); }
  }

  lemma {:induction false} AfterConcat(s: State, v: seq<Input>, w: seq<Input>)
    ensures After(s, v + w) == After(After(s, v), w)
  {
    if w == [] {
      assert v + w == v;
    } else {
      var front := w[..|w| - 1];
      AfterConcat(s, v, front);
      assert (v + w)[..|v + w| - 1] == v + front;
    }
  }

  lemma EndIsFailure(s: State, v: seq<Input>)
    requires v != [] && (LastOutput(s, v).Error? || LastOutput(s, v).Finished?)
    ensures After(s, v) == Failed(if LastOutput(s, v).Error? then LastOutput(s, v).error else Primitive)
  {
  }

  /** Once an error or a bearer token has come out, everything after is an error; an error never changes. */
  lemma AfterTheEnd(s: State, v: seq<Input>, w: seq<Input>)
    requires v != [] && w != [] && (LastOutput(s, v).Error? || LastOutput(s, v).Finished?)
    ensures LastOutput(s, v + w) == Error(if LastOutput(s, v).Error? then LastOutput(s, v).error else Primitive)
  {
    var front := w[..|w| - 1];
    assert (v + w)[..|v + w| - 1] == v + front;
    AfterConcat(s, v, front);
    EndIsFailure(s, v);
    ErrorsRepeat(After(s, v), w);
  }

  /**
   * The documented "output is repeated on `None`" holds in every state except the two whose arms
   * drop the state that `take` removed.
   */
  lemma IdleRepeatsOutputIff(s: State)
    ensures Next(s, NoInput) == (s, OutputOf(s)) <==> !s.CoAuthenticating? && !s.Issuing?
    ensures s.CoAuthenticating? || s.Issuing? ==> Next(s, NoInput) == (Failed(Primitive), Error(Primitive))
  {
  }
}
