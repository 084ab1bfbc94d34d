/** The state machine of an authorization request (code_grant/authorization.rs). */
module AuthorizationMachine {
  import opened Prelude
  import opened Scopes
  import opened Grants
  import opened Registrars

  datatype Request = Request(
    valid: bool,
    clientId: Option<string>,
    scope: Option<string>,
    redirectUri: Option<string>,
    state: Option<string>,
    responseType: Option<string>,
    extension: map<string, string>)

  datatype ErrorType = InvalidRequest | UnsupportedResponseType | InvalidScope | AccessDenied

  /** A redirect back to the client: target url, the `state` to echo, and the error. */
  datatype ErrorUrl = ErrorUrl(base: Url, state: Option<string>, kind: ErrorType)

  datatype AuthError = Ignore | Redirect(url: ErrorUrl) | PrimitiveError

  /** `Stuck` marks the spots where the source would panic in an `expect`. */
  datatype State =
    | Binding(clientId: string, redirectUri: Option<string>)
    | Extending(bound: BoundClient)
    | Negotiating(bound: BoundClient)
    | PendingConsent(preGrant: PreGrant, state: Option<string>, extensions: Extensions)
    | Failed(error: AuthError)
    | Stuck

  /** The machine's fields besides the state proper. */
  datatype Machine = Machine(state: State, extensions: Option<Extensions>, scope: Option<Scope>)

  datatype Input =
    | Bound(request: Request, bound: BoundClient)
    | Extended(extensions: Extensions)
    | Negotiated(preGrant: PreGrant, state: Option<string>)
    | Done
    | NoInput

  datatype Output =
    | AskBind(clientId: string, redirectUri: Option<string>)
    | AskExtend
    | AskNegotiate(bound: BoundClient, scope: Option<Scope>)
    | Finished(preGrant: PreGrant, state: Option<string>, extensions: Extensions)
    | Error(error: AuthError)
    | Panic

  function Validate(reg: ClientMap, request: Request): State {
    if !request.valid || request.clientId.None? then Failed(Ignore)
    else if request.redirectUri.Some? && reg.parseUrl(request.redirectUri.value).None? then Failed(Ignore)
    else Binding(request.clientId.value, request.redirectUri)
  }

  function New(reg: ClientMap, request: Request): Machine {
    Machine(Validate(reg, request), None, None)
  }

  function WithRequest(request: Request, base: Url, kind: ErrorType): ErrorUrl {
    ErrorUrl(base, request.state, kind)
  }

  function BoundClientArrived(reg: ClientMap, m: Machine, request: Request, bound: BoundClient): Machine {
    var base := ToUrl(reg, bound.redirect);
    if request.responseType != Some("code") then
      if base.None? then m.(state := Stuck)
      else m.(state := Failed(Redirect(WithRequest(request, base.value, UnsupportedResponseType))))
    else
      match request.scope
      case None => m.(state := Extending(bound), scope := None)
      case Some(text) =>
        match Parse(text)
        case Ok(scope) => m.(state := Extending(bound), scope := Some(scope))
        case Err(_) =>
          if base.None? then m.(state := Stuck)
          else m.(state := Failed(Redirect(WithRequest(request, base.value, InvalidScope))))
  }

  function OutputOf(m: Machine): Output {
    match m.state
    case Failed(error) => Error(error)
    case Binding(clientId, redirectUri) => AskBind(clientId, redirectUri)
    case Extending(_) => AskExtend
    case Negotiating(bound) => AskNegotiate(bound, m.scope)
    case PendingConsent(preGrant, state, extensions) => Finished(preGrant, state, extensions)
    case Stuck => Panic
  }

  function Next(reg: ClientMap, m: Machine, input: Input): Machine {
    match (m.state, input)
    case (_, NoInput) => m
    case (Binding(_, _), Bound(request, bound)) => BoundClientArrived(reg, m, request, bound)
    case (Extending(bound), Extended(extensions)) => m.(extensions := Some(extensions), state := Negotiating(bound))
    case (Negotiating(_), Negotiated(preGrant, state)) =>
      if m.extensions.None? then m.(state := Stuck)
      else m.(state := PendingConsent(preGrant, state, m.extensions.value))
    case (Failed(_), _) => m
    case (Stuck, _) => m
    case _ => m.(state := Failed(PrimitiveError))
  }

  class Authorization {
    var state: State
    var extensions: Option<Extensions>
    var scope: Option<Scope>

    function Fields(): Machine
      reads this
    {
      Machine(state, extensions, scope)
    }

    constructor (reg: ClientMap, request: Request)
      ensures Fields() == New(reg, request)
    {
      state := Validate(reg, request);
      extensions, scope := None, None;
    }

    method Advance(reg: ClientMap, input: Input) returns (output: Output)
      modifies this
      ensures Fields() == Next(reg, old(Fields()), input)
      ensures output == OutputOf(Fields())
    {
      var current := state;
      match (current, input) {
        case (_, NoInput) =>
        case (Binding(_, _), Bound(request, bound)) =>
          var m := BoundClientArrived(reg, Fields(), request, bound);
          state, scope := m.state, m.scope;
        case (Extending(bound), Extended(e)) =>
          extensions := Some(e);
          state := Negotiating(bound);
        case (Negotiating(_), Negotiated(preGrant, s)) =>
          if extensions.None? {
            state := Stuck;
          } else {
            state := PendingConsent(preGrant, s, extensions.value);
          }
        case (Failed(_), _) =>
        case (Stuck, _) =>
        case _ => state := Failed(PrimitiveError);
      }
      output := OutputOf(Fields());
    }
  }

  // ------------------------------------------------------------------- words

  function After(reg: ClientMap, m: Machine, word: seq<Input>): Machine {
    if word == [] then m else Next(reg, After(reg, m, word[..|word| - 1]), word[|word| - 1])
  }

  /** The output after the last input of `word`. */
  function LastOutput(reg: ClientMap, m: Machine, word: seq<Input>): Output {
    OutputOf(After(reg, m, word))
  }

  function Compact(word: seq<Input>): seq<Input> {
    if word == [] then []
    else Compact(word[..|word| - 1]) + if word[|word| - 1].NoInput? then [] else [word[|word| - 1]]
  }

  lemma {:induction false} AfterCompact(reg: ClientMap, m: Machine, word: seq<Input>)
    ensures After(reg, m, word) == After(reg, m, Compact(word))
  {
    if word != [] {
      var front := word[..|word| - 1];
      var last := word[|word| - 1];
      AfterCompact(reg, m, front);
      if last.NoInput? {
        assert Compact(word) == Compact(front);
      } else {
        var c := Compact(front) + [last];
        assert c[..|c| - 1] == Compact(front);
      }
    }
  }

  /** After binding and extending, the registrar is asked about the scope of the request. */
  lemma NegotiatesRequestedScope(reg: ClientMap, request: Request, bound: BoundClient, extensions: Extensions)
    requires Validate(reg, request).Binding? && AcceptableRequest(request)
    ensures LastOutput(reg, New(reg, request), [Bound(request, bound), Extended(extensions)])
            == AskNegotiate(bound, if request.scope.Some? then Some(Parse(request.scope.value).value) else None)
  {
    var word := [Bound(request, bound), Extended(extensions)];
    var m, m' := New(reg, request), BoundClientArrived(reg, New(reg, request), request, bound);
    assert word[..1][..0] == [] && word[..1][0] == word[0];
    assert After(reg, m, word[..1]) == Next(reg, m, word[0]) == m';
    assert After(reg, m, word) == Next(reg, m', word[1]);
  }

  predicate AcceptableRequest(request: Request) {
    request.responseType == Some("code") && (request.scope.Some? ==> Parse(request.scope.value).Ok?)
  }

  /** The moves up to a pending consent; idle inputs may stand anywhere, also after the last move. */
  predicate SuccessMoves(m: Machine, moves: seq<Input>) {
    && m.state.Binding? && |moves| == 3
    && moves[0].Bound? && AcceptableRequest(moves[0].request)
    && moves[1].Extended? && moves[2].Negotiated?
  }

  lemma CompactHasNoIdle(word: seq<Input>, i: nat)
    requires i < |Compact(word)|
    ensures !Compact(word)[i].NoInput?
  {
  }

  lemma {:induction false} StateCountsMoves(reg: ClientMap, m: Machine, moves: seq<Input>)
    requires m.state.Binding? && forall i :: 0 <= i < |moves| ==> !moves[i].NoInput?
    ensures After(reg, m, moves).state.Binding? ==> moves == []
    ensures After(reg, m, moves).state.Extending? <==>
              |moves| == 1 && moves[0].Bound? && AcceptableRequest(moves[0].request)
    ensures After(reg, m, moves).state.Negotiating? <==>
              |moves| == 2 && moves[0].Bound? && AcceptableRequest(moves[0].request) && moves[1].Extended?
    ensures After(reg, m, moves).state.Negotiating? ==> After(reg, m, moves).extensions == Some(moves[1].extensions)
    ensures After(reg, m, moves).state.PendingConsent? <==> SuccessMoves(m, moves)
    ensures SuccessMoves(m, moves) ==>
              After(reg, m, moves).state == PendingConsent(moves[2].preGrant, moves[2].state, moves[1].extensions)
  {
    if moves != [] {
      StateCountsMoves(reg, m, moves[..|moves| - 1]);
    }
  }

  /** Exactly the words whose moves are bind, extend, negotiate of an acceptable request end pending. */
  lemma FinishedIffSuccessMoves(reg: ClientMap, request: Request, word: seq<Input>)
    ensures var m := New(reg, request);
            var moves := Compact(word);
            && (LastOutput(reg, m, word).Finished? <==> SuccessMoves(m, moves))
            && (SuccessMoves(m, moves) ==>
                  LastOutput(reg, m, word) == Finished(moves[2].preGrant, moves[2].state, moves[1].extensions))
  {
    var m := New(reg, request);
    if m.state.Failed? {
      ErrorsRepeat(reg, m, word);
    } else {
      AfterCompact(reg, m, word);
      forall i | 0 <= i < |Compact(word)| ensures !Compact(word)[i].NoInput? { CompactHasNoIdle(word, i); }
      StateCountsMoves(reg, m, Compact(word));
    }
  }

  lemma {:induction false} ErrorsRepeat(reg: ClientMap, m: Machine, word: seq<Input>)
    requires m.state.Failed?
    ensures After(reg, m, word) == m
  {
    if word != [] { ErrorsRepeat(reg, m, word[..|word| - 1]); }
  }

  lemma {:induction false} AfterConcat(reg: ClientMap, m: Machine, v: seq<Input>, w: seq<Input>)
    ensures After(reg, m, v + w) == After(reg, After(reg, m, v), w)
  {
    if w == [] {
      assert v + w == v;
    } else {
      AfterConcat(reg, m, v, w[..|w| - 1]);
      assert (v + w)[..|v + w| - 1] == v + w[..|w| - 1];
    }
  }

  /** A reported error is repeated unchanged, whatever follows. */
  lemma AfterAnError(reg: ClientMap, m: Machine, v: seq<Input>, w: seq<Input>)
    requires LastOutput(reg, m, v).Error?
    ensures LastOutput(reg, m, v + w) == LastOutput(reg, m, v)
  {
    AfterConcat(reg, m, v, w);
    ErrorsRepeat(reg, After(reg, m, v), w);
  }

  predicate Idle(word: seq<Input>) {
    forall i :: 0 <= i < |word| ==> word[i].NoInput?
  }

  lemma {:induction false} PendingUntilInput(reg: ClientMap, m: Machine, word: seq<Input>)
    requires m.state.PendingConsent?
    ensures After(reg, m, word) == if Idle(word) then m else m.(state := Failed(PrimitiveError))
  {
    if word != [] {
      var front := word[..|word| - 1];
      PendingUntilInput(reg, m, front);
      assert forall i :: 0 <= i < |front| ==> front[i] == word[i];
    }
  }

  /** A pending consent is repeated while the input is idle; any other input turns it into an error for good. */
  lemma AfterFinished(reg: ClientMap, m: Machine, v: seq<Input>, w: seq<Input>)
    requires LastOutput(reg, m, v).Finished?
    ensures LastOutput(reg, m, v + w) == if Idle(w) then LastOutput(reg, m, v) else Error(PrimitiveError)
  {
    AfterConcat(reg, m, v, w);
    PendingUntilInput(reg, After(reg, m, v), w);
  }
}
