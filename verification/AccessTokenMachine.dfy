/** The state machine that redeems an authorization code (code_grant/accesstoken.rs). */
module AccessTokenMachine {
  import opened Prelude
  import opened Scopes
  import opened Grants
  import opened Registrars
  import opened TokenErrors

  datatype Request = Request(
    valid: bool,
    code: Option<string>,
    authorization: Option<(string, string)>,
    clientId: Option<string>,
    redirectUri: Option<string>,
    grantType: Option<string>,
    extension: map<string, string>,
    allowCredentialsInBody: bool)

  datatype IssuedToken = IssuedToken(token: string, refresh: Option<string>, until: Time)

  datatype BearerToken = BearerToken(token: IssuedToken, scope: Scope)

  // ------------------------------------------------------------- credentials

  datatype Credentials =
    | NoCredentials
    | WithPassphrase(clientId: string, passphrase: string)
    | NameOnly(clientId: string)
    | Duplicate
  {
    function Add(other: Credentials): Credentials {
      if NoCredentials? then other else Duplicate
    }

    function IntoClient(): Option<(string, Option<string>)> {
      match this
      case WithPassphrase(id, pass) => Some((id, Some(pass)))
      case NameOnly(id) => Some((id, None))
      case _ => None
    }
  }

  function Parameter(request: Request, key: string): Option<string> {
    if key in request.extension then Some(request.extension[key]) else None
  }

  /**
   * Collects the offered credentials, one `add` per source. A client comes out exactly if it was named in one
   * place; its passphrase is that of the header, or the secret in the body where that is allowed.
   */
  method CollectCredentials(request: Request) returns (client: Option<(string, Option<string>)>)
    ensures client == ClientOf(request)
    ensures client.Some? <==> NamedOnce(request)
    ensures client.Some? ==> client.value == (Named(request), PassphraseOf(request))
  {
    var credentials := NoCredentials;
    if request.authorization.Some? {
      var (id, pass) := request.authorization.value;
      credentials := credentials.Add(WithPassphrase(id, pass));
    }
    if request.clientId.Some? {
      var secret := Parameter(request, "client_secret");
      if secret.Some? && request.allowCredentialsInBody {
        credentials := credentials.Add(WithPassphrase(request.clientId.value, secret.value));
      } else {
        credentials := credentials.Add(NameOnly(request.clientId.value));
      }
    }
    client := credentials.IntoClient();
  }

  /** Exactly one way of naming the client counts: the header, or the body when there is no header. */
  function ClientOf(request: Request): Option<(string, Option<string>)> {
    match (request.authorization, request.clientId)
    case (Some((id, pass)), None) => Some((id, Some(pass)))
    case (None, Some(id)) => Some((id, if request.allowCredentialsInBody then Parameter(request, "client_secret")
                                   else None))
    case _ => None
  }

  /** Section 2.3 of RFC 6749: the client is named in the header or in the body, and not in both. */
  predicate NamedOnce(request: Request) {
    request.authorization.Some? <==> request.clientId.None?
  }

  function Named(request: Request): string
    requires NamedOnce(request)
  {
    if request.authorization.Some? then request.authorization.value.0 else request.clientId.value
  }

  /** The secret in the body counts only without a header, and only where the endpoint allows it. */
  function PassphraseOf(request: Request): Option<string> {
    if request.authorization.Some? then Some(request.authorization.value.1)
    else if request.allowCredentialsInBody && "client_secret" in request.extension then
      Some(request.extension["client_secret"])
    else None
  }

  /** The request names this client once, and shows its accepted passphrase, or none for a public client. */
  predicate RedeemAuthorized(reg: ClientMap, request: Request, client: string) {
    && NamedOnce(request) && Named(request) == client
    && match PassphraseOf(request)
       case Some(pass) => PassphraseAccepted(reg, client, pass)
       case None => IsPublic(reg, client)
  }

  lemma CredentialsMeaning(reg: ClientMap, request: Request)
    ensures ClientOf(request).Some? <==> NamedOnce(request)
    ensures ClientOf(request).Some? ==>
              var (client, pass) := ClientOf(request).value;
              && client == Named(request) && pass == PassphraseOf(request)
              && (Check(reg, client, pass).Ok? <==> RedeemAuthorized(reg, request, client))
              && (Check(reg, client, pass) == Err(Unspecified) <==> Rejected(reg, client, pass))
  {
    if NamedOnce(request) { CheckMeaning(reg, Named(request), PassphraseOf(request)); }
  }

  // ------------------------------------------------------------- transitions

  datatype State =
    | Authenticate(client: string, passdata: Option<string>, code: string, redirect: Url)
    | Recover(client: string, code: string, redirect: Url)
    | Extend(saved: Grant, extensions: Extensions)
    | Issue(grant: Grant)
    | Failed(error: TokenError)

  datatype Input =
    | Authenticated
    | Recovered(grant: Option<Grant>, now: Time)
    | Extended(extensions: Extensions)
    | Issued(token: IssuedToken)
    | OtherRequest
    | NoInput

  datatype Output =
    | AskAuthenticate(client: string, pass: Option<string>)
    | AskRecover(code: string)
    | AskExtend(extensions: Extensions)
    | AskIssue(grant: Grant)
    | Finished(bearer: BearerToken)
    | Error(error: TokenError)

  function Validate(parseUrl: string -> Option<Url>, request: Request): State {
    if !request.valid then Failed(Invalid(InvalidRequest))
    else if request.grantType.None? then Failed(Invalid(InvalidRequest))
    else if request.grantType.value != "authorization_code" then Failed(Invalid(UnsupportedGrantType))
    else
      match ClientOf(request)
      case None => Failed(Invalid(InvalidRequest))
      case Some((client, pass)) =>
        if request.redirectUri.None? || parseUrl(request.redirectUri.value).None? || request.code.None? then
          Failed(Invalid(InvalidRequest))
        else
          Authenticate(client, pass, request.code.value, parseUrl(request.redirectUri.value).value)
  }

  function RecoveredGrant(client: string, redirect: Url, grant: Option<Grant>, now: Time): State {
    match grant
    case None => Failed(Invalid(InvalidRequest))
    case Some(saved) =>
      if saved.client != client || saved.redirect != redirect then Failed(Invalid(InvalidGrant))
      else if saved.until < now then Failed(Invalid(InvalidGrant))
      else Extend(saved.(extensions := map[]), saved.extensions)
  }

  function OutputOf(state: State): Output {
    match state
    case Authenticate(client, pass, _, _) => AskAuthenticate(client, pass)
    case Recover(_, code, _) => AskRecover(code)
    case Extend(_, extensions) => AskExtend(extensions)
    case Issue(grant) => AskIssue(grant)
    case Failed(error) => Error(error)
  }

  function NextState(state: State, input: Input): State {
    match (state, input)
    case (_, NoInput) => state
    case (Authenticate(client, _, code, redirect), Authenticated) => Recover(client, code, redirect)
    case (Recover(client, _, redirect), Recovered(grant, now)) => RecoveredGrant(client, redirect, grant, now)
    case (Extend(saved, _), Extended(extensions)) => Issue(saved.(extensions := extensions))
    case (Failed(_), _) => state
    case _ => Failed(Primitive)
  }

  function Next(state: State, input: Input): (State, Output) {
    if state.Issue? && input.Issued? then (Failed(Primitive), Finished(BearerToken(input.token, state.grant.scope)))
    else (NextState(state, input), OutputOf(NextState(state, input)))
  }

  class AccessToken {
    var state: State

    constructor (parseUrl: string -> Option<Url>, request: Request)
      ensures state == Validate(parseUrl, request)
    {
      state := Validate(parseUrl, request);
    }

    method Take() returns (current: State)
      modifies this
      ensures current == old(state) && state == Failed(Primitive)
    {
      current := state;
      state := Failed(Primitive);
    }

    method Advance(input: Input) returns (output: Output)
      modifies this
      ensures (state, output) == Next(old(state), input)
    {
      var current := Take();
      match (current, input) {
        case (_, NoInput) => state := current;
        case (Authenticate(client, _, code, redirect), Authenticated) => state := Recover(client, code, redirect);
        case (Recover(client, _, redirect),
              Recovered(grant, now)) => state := RecoveredGrant(client, redirect, grant, now);
        case (Extend(saved, _), Extended(extensions)) => state := Issue(saved.(extensions := extensions));
        case (Issue(grant), Issued(token)) => return Finished(BearerToken(token, grant.scope));
        case (Failed(error), _) => state := Failed(error);
        case _ =>
      }
      output := OutputOf(state);
    }
  }

  // ------------------------------------------------------------------- words

  function After(state: State, word: seq<Input>): State {
    if word == [] then state else Next(After(state, word[..|word| - 1]), word[|word| - 1]).0
  }

  function LastOutput(state: State, word: seq<Input>): Output
    requires word != []
  {
    Next(After(state, word[..|word| - 1]), word[|word| - 1]).1
  }

  /** The word without its idle inputs. */
  function Compact(word: seq<Input>): seq<Input> {
    if word == [] then []
    else Compact(word[..|word| - 1]) + if word[|word| - 1].NoInput? then [] else [word[|word| - 1]]
  }

  /** Idle inputs never matter to the state. */
  lemma {:induction false} AfterCompact(s: State, word: seq<Input>)
    ensures After(s, word) == After(s, Compact(word))
  {
    if word != [] {
      var front := word[..|word| - 1];
      var last := word[|word| - 1];
      AfterCompact(s, front);
      if last.NoInput? {
        assert Compact(word) == Compact(front);
      } else {
        var c := Compact(front) + [last];
        assert c[..|c| - 1] == Compact(front);
      }
    }
  }

  /** The grant that may be issued after authentication, a matching recovered grant and new extensions. */
  function GrantToIssue(s: State, moves: seq<Input>): Option<Grant> {
    if s.Authenticate? && |moves| == 3 && moves[0].Authenticated? && moves[1].Recovered? && moves[2].Extended? then
      var extend := RecoveredGrant(s.client, s.redirect, moves[1].grant, moves[1].now);
      if extend.Extend? then Some(extend.saved.(extensions := moves[2].extensions)) else None
    else None
  }

  predicate SuccessWord(s: State, word: seq<Input>) {
    && word != [] && word[|word| - 1].Issued?
    && GrantToIssue(s, Compact(word[..|word| - 1])).Some?
  }

  lemma CompactHasNoIdle(word: seq<Input>, i: nat)
    requires i < |Compact(word)|
    ensures !Compact(word)[i].NoInput?
  {
  }

  /** After idle-free input the state tells how many moves were made. */
  lemma {:induction false} StateCountsMoves(s: State, moves: seq<Input>)
    requires s.Authenticate? && forall i :: 0 <= i < |moves| ==> !moves[i].NoInput?
    ensures After(s, moves).Authenticate? ==> moves == []
    ensures After(s, moves).Recover? <==> |moves| == 1 && moves[0].Authenticated?
    ensures After(s, moves).Recover? ==> After(s, moves) == Recover(s.client, s.code, s.redirect)
    ensures After(s, moves).Extend? <==>
              |moves| == 2 && moves[0].Authenticated? && moves[1].Recovered?
              && RecoveredGrant(s.client, s.redirect, moves[1].grant, moves[1].now).Extend?
    ensures After(s, moves).Extend? ==>
              After(s, moves) == RecoveredGrant(s.client, s.redirect, moves[1].grant, moves[1].now)
    ensures After(s, moves).Issue? <==> GrantToIssue(s, moves).Some?
    ensures After(s, moves).Issue? ==> After(s, moves) == Issue(GrantToIssue(s, moves).value)
  {
    if moves != [] {
      StateCountsMoves(s, moves[..|moves| - 1]);
    }
  }

  lemma IssuingAfter(s: State, front: seq<Input>)
    requires s.Authenticate? || s.Failed?
    ensures After(s, front).Issue? <==> GrantToIssue(s, Compact(front)).Some?
    ensures After(s, front).Issue? ==> After(s, front).grant == GrantToIssue(s, Compact(front)).value
  {
    if s.Failed? {
      ErrorsRepeat(s, front);
    } else {
      AfterCompact(s, front);
      forall i | 0 <= i < |Compact(front)| ensures !Compact(front)[i].NoInput? { CompactHasNoIdle(front, i); }
      StateCountsMoves(s, Compact(front));
    }
  }

  lemma FinishedFrom(s: State, word: seq<Input>)
    requires word != [] && (s.Authenticate? || s.Failed?)
    ensures LastOutput(s, word).Finished? <==> SuccessWord(s, word)
    ensures SuccessWord(s, word) ==>
              LastOutput(s, word).bearer
              == BearerToken(word[|word| - 1].token, GrantToIssue(s, Compact(word[..|word| - 1])).value.scope)
  {
    IssuingAfter(s, word[..|word| - 1]);
  }

  /** Exactly the success words finish, idle inputs aside; the token goes with the recovered grant's scope. */
  lemma FinishedIffSuccessWord(parseUrl: string -> Option<Url>, request: Request, word: seq<Input>)
    requires word != []
    ensures var s := Validate(parseUrl, request);
            && (LastOutput(s, word).Finished? <==> SuccessWord(s, word))
            && (SuccessWord(s, word) ==>
                  LastOutput(s, word).bearer
                  == BearerToken(word[|word| - 1].token, GrantToIssue(s, Compact(word[..|word| - 1])).value.scope))
  {
    FinishedFrom(Validate(parseUrl, request), word);
  }

  lemma {:induction false} ErrorsRepeat(s: State, word: seq<Input>)
    requires s.Failed?
    ensures After(s, word) == s
    ensures word != [] ==> LastOutput(s, word) == Error(s.error)
  {
    if word != [] { ErrorsRepeat(s, word[..|word| - 1]); }
  }

  lemma {:induction false} AfterConcat(s: State, v: seq<Input>, w: seq<Input>)
    ensures After(s, v + w) == After(After(s, v), w)
  {
    if w == [] {
      assert v + w == v;
    } else {
      AfterConcat(s, v, w[..|w| - 1]);
      assert (v + w)[..|v + w| - 1] == v + w[..|w| - 1];
    }
  }

  /** Once an error or a bearer token has come out, everything after is an error; an error never changes. */
  lemma AfterTheEnd(s: State, v: seq<Input>, w: seq<Input>)
    requires v != [] && w != [] && (LastOutput(s, v).Error? || LastOutput(s, v).Finished?)
    ensures LastOutput(s, v + w) == Error(if LastOutput(s, v).Error? then LastOutput(s, v).error else Primitive)
  {
    assert (v + w)[..|v + w| - 1] == v + w[..|w| - 1];
    AfterConcat(s, v, w[..|w| - 1]);
    ErrorsRepeat(After(s, v), w);
  }
}
