/** The state machine guarding a resource (code_grant/resource.rs). */
module ResourceMachine {
  import opened Prelude
  import opened Scopes
  import opened Grants

  datatype Request = Request(valid: bool, token: Option<string>)

  datatype ErrorCode = InvalidRequestCode | InsufficientScope | InvalidToken

  /** The scope is the one reported in the `WWW-Authenticate` header. */
  datatype ResourceError =
    | AccessDenied(code: ErrorCode, scope: Option<Scope>)
    | NoAuthentication
    | InvalidRequest
    | PrimitiveError

  datatype State =
    | Initial
    | Internalized(token: string)
    | Recovering(token: string, scopes: seq<Scope>)
    | Failed(error: ResourceError)

  datatype Input =
    | Recovered(grant: Option<Grant>, now: Time)
    | Scopes(scopes: seq<Scope>)
    | GotRequest(request: Request)
    | NoInput

  datatype Output =
    | GetRequest
    | DetermineScopes
    | AskRecover(token: string)
    | Finished(grant: Grant)
    | Error(error: ResourceError)

  const BEARER_START := "Bearer "

  function Validate(request: Request): State {
    if !request.valid then Failed(InvalidRequest)
    else
      match request.token
      case None => Failed(NoAuthentication)
      case Some(text) =>
        if BEARER_START <= text then Internalized(text[|BEARER_START|..]) else Failed(InvalidRequest)
  }

  function FirstScope(scopes: seq<Scope>): Option<Scope> {
    if scopes == [] then None else Some(scopes[0])
  }

  /** The comparison as coded: the grant's scope is below one of the resource's scopes. */
  predicate CodedAllows(grant: Scope, scopes: seq<Scope>) {
    exists i :: 0 <= i < |scopes| && AllowAccess(grant, scopes[i])
  }

  /** The comparison as documented: one of the resource's scopes is below the grant's scope. */
  predicate DocumentedAllows(grant: Scope, scopes: seq<Scope>) {
    exists i :: 0 <= i < |scopes| && AllowAccess(scopes[i], grant)
  }

  function CheckRecovered(grant: Option<Grant>, scopes: seq<Scope>, now: Time): Result<Grant, ResourceError> {
    match grant
    case None => Err(AccessDenied(InvalidRequestCode, FirstScope(scopes)))
    case Some(g) =>
      if g.until < now then Err(AccessDenied(InvalidToken, None))
      else if CodedAllows(g.scope, scopes) then Ok(g)
      else Err(AccessDenied(InsufficientScope, FirstScope(scopes)))
  }

  function OutputOf(state: State): Output {
    match state
    case Initial => GetRequest
    case Internalized(_) => DetermineScopes
    case Recovering(token, _) => AskRecover(token)
    case Failed(error) => Error(error)
  }

  function Next(state: State, input: Input): (State, Output) {
    match (state, input)
    case (_, NoInput) => (state, OutputOf(state))
    case (Initial, GotRequest(request)) => (Validate(request), OutputOf(Validate(request)))
    case (Internalized(token), Scopes(scopes)) => (Recovering(token, scopes), AskRecover(token))
    case (Recovering(_, scopes), Recovered(grant, now)) =>
      (match CheckRecovered(grant, scopes, now)
       case Ok(g) => (Failed(PrimitiveError), Finished(g))
       case Err(error) => (Failed(error), Error(error)))
    case _ => (Failed(PrimitiveError), Error(PrimitiveError))
  }

  class Resource {
    var state: State

    constructor ()
      ensures state == Initial
    {
      state := Initial;
    }

    method Take() returns (current: State)
      modifies this
      ensures current == old(state) && state == Failed(PrimitiveError)
    {
      current := state;
      state := Failed(PrimitiveError);
    }

    method Advance(input: Input) returns (output: Output)
      modifies this
      ensures (state, output) == Next(old(state), input)
    {
      var current := Take();
      match (current, input) {
        case (_, NoInput) => state := current;
        case (Initial, GotRequest(request)) => state := Validate(request);
        case (Internalized(token), Scopes(scopes)) => state := Recovering(token, scopes);
        case (Recovering(_, scopes), Recovered(grant, now)) =>
          var checked := CheckRecovered(grant, scopes, now);
          if checked.Ok? { return Finished(checked.value); }
          state := Failed(checked.error);
        case _ => return Error(PrimitiveError);
      }
      output := OutputOf(state);
    }
  }

  // ------------------------------------------------------------------- words

  function After(state: State, word: seq<Input>): State {
    if word == [] then state else Next(After(state, word[..|word| - 1]), word[|word| - 1]).0
  }

  function LastOutput(state: State, word: seq<Input>): Output
    requires word != []
  {
    Next(After(state, word[..|word| - 1]), word[|word| - 1]).1
  }

  function Compact(word: seq<Input>): seq<Input> {
    if word == [] then []
    else Compact(word[..|word| - 1]) + if word[|word| - 1].NoInput? then [] else [word[|word| - 1]]
  }

  lemma {:induction false} AfterCompact(s: State, word: seq<Input>)
    ensures After(s, word) == After(s, Compact(word))
  {
    if word != [] {
      var front := word[..|word| - 1];
      var last := word[|word| - 1];
      AfterCompact(s, front);
      if last.NoInput? {
        assert Compact(word) == Compact(front);
      } else {
        var c := Compact(front) + [last];
        assert c[..|c| - 1] == Compact(front);
      }
    }
  }

  lemma CompactHasNoIdle(word: seq<Input>, i: nat)
    requires i < |Compact(word)|
    ensures !Compact(word)[i].NoInput?
  {
  }

  /** A valid bearer request, then the scopes of the resource. */
  predicate ReadyMoves(moves: seq<Input>) {
    |moves| == 2 && moves[0].GotRequest? && Validate(moves[0].request).Internalized? && moves[1].Scopes?
  }

  /** The last input hands in a live grant that one of those scopes allows. */
  predicate SuccessWord(word: seq<Input>) {
    && word != [] && word[|word| - 1].Recovered? && word[|word| - 1].grant.Some?
    && ReadyMoves(Compact(word[..|word| - 1]))
    && var g := word[|word| - 1].grant.value;
    && word[|word| - 1].now <= g.until
    && CodedAllows(g.scope, Compact(word[..|word| - 1])[1].scopes)
  }

  lemma {:induction false} StateCountsMoves(moves: seq<Input>)
    requires forall i :: 0 <= i < |moves| ==> !moves[i].NoInput?
    ensures After(Initial, moves).Initial? ==> moves == []
    ensures After(Initial, moves).Internalized? <==>
              |moves| == 1 && moves[0].GotRequest? && Validate(moves[0].request).Internalized?
    ensures After(Initial, moves).Recovering? <==> ReadyMoves(moves)
    ensures ReadyMoves(moves) ==> After(Initial, moves).scopes == moves[1].scopes
  {
    if moves != [] {
      StateCountsMoves(moves[..|moves| - 1]);
    }
  }

  /** Exactly the success words grant access, and with the very grant that was handed in. */
  lemma FinishedIffSuccessWord(word: seq<Input>)
    requires word != []
    ensures LastOutput(Initial, word).Finished? <==> SuccessWord(word)
    ensures SuccessWord(word) ==> LastOutput(Initial, word) == Finished(word[|word| - 1].grant.value)
  {
    var front := word[..|word| - 1];
    AfterCompact(Initial, front);
    forall i | 0 <= i < |Compact(front)| ensures !Compact(front)[i].NoInput? { CompactHasNoIdle(front, i); }
    StateCountsMoves(Compact(front));
  }

  lemma {:induction false} AfterConcat(s: State, v: seq<Input>, w: seq<Input>)
    ensures After(s, v + w) == After(After(s, v), w)
  {
    if w == [] {
      assert v + w == v;
    } else {
      AfterConcat(s, v, w[..|w| - 1]);
      assert (v + w)[..|v + w| - 1] == v + w[..|w| - 1];
    }
  }

  predicate Idle(word: seq<Input>) {
    forall i :: 0 <= i < |word| ==> word[i].NoInput?
  }

  lemma {:induction false} FailedForGood(s: State, word: seq<Input>)
    requires s.Failed?
    ensures After(s, word) == if Idle(word) then s else Failed(PrimitiveError)
    ensures word != [] ==> LastOutput(s, word) == Error(if Idle(word) then s.error else PrimitiveError)
  {
    if word != [] {
      var front := word[..|word| - 1];
      FailedForGood(s, front);
      assert forall i :: 0 <= i < |front| ==> front[i] == word[i];
    }
  }

  /**
   * After the end every output is an error. The documented promise that an error is repeated on any
   * input is kept exactly while only idle inputs follow, or if the error was already the generic one.
   */
  lemma AfterTheEnd(s: State, v: seq<Input>, w: seq<Input>)
    requires v != [] && w != [] && (LastOutput(s, v).Error? || LastOutput(s, v).Finished?)
    ensures LastOutput(s, v + w).Error?
    ensures LastOutput(s, v).Finished? ==> LastOutput(s, v + w) == Error(PrimitiveError)
    ensures LastOutput(s, v).Error? ==>
              (LastOutput(s, v + w) == LastOutput(s, v) <==> Idle(w) || LastOutput(s, v) == Error(PrimitiveError))
  {
    assert (v + w)[..|v + w| - 1] == v + w[..|w| - 1];
    AfterConcat(s, v, w[..|w| - 1]);
    FailedForGood(After(s, v), w);
  }

  /** A run that breaks the documented promise: a request without a token, then any further input. */
  lemma ErrorNotRepeated()
    ensures var v := [GotRequest(Request(true, None))];
            && LastOutput(Initial, v) == Error(NoAuthentication)
            && LastOutput(Initial, v + [Scopes([])]) == Error(PrimitiveError)
  {
    var v := [GotRequest(Request(true, None))];
    assert v[..0] == [];
    AfterTheEnd(Initial, v, [Scopes([])]);
    assert !Idle([Scopes([])]) by { assert ![Scopes([])][0].NoInput?; }
    FailedForGood(After(Initial, v), [Scopes([])]);
    assert (v + [Scopes([])])[..1] == v;
  }

  /** Some of the resource's scopes compares to the grant's scope in this way. */
  predicate Compares(grant: Scope, scopes: seq<Scope>, how: Option<Ordering>) {
    exists i :: 0 <= i < |scopes| && PartialCmp(grant, scopes[i]) == how
  }

  lemma AllowsByComparison(grant: Scope, scopes: seq<Scope>)
    ensures CodedAllows(grant, scopes)
            <==> Compares(grant, scopes, Some(Equal)) || Compares(grant, scopes, Some(Less))
    ensures DocumentedAllows(grant, scopes)
            <==> Compares(grant, scopes, Some(Equal)) || Compares(grant, scopes, Some(Greater))
  {
    forall i | 0 <= i < |scopes|
      ensures AllowAccess(grant, scopes[i])
              <==> PartialCmp(grant, scopes[i]) == Some(Equal) || PartialCmp(grant, scopes[i]) == Some(Less)
      ensures AllowAccess(scopes[i], grant)
              <==> PartialCmp(grant, scopes[i]) == Some(Equal) || PartialCmp(grant, scopes[i]) == Some(Greater)
    {
      PartialCmpIsSubsetOrder(grant, scopes[i]);
      PartialCmpIsSubsetOrder(scopes[i], grant);
    }
  }

  /**
   * The coded and the documented comparison give the same answer exactly if one of the resource's scopes
   * equals the grant's, or one is larger and another smaller, or none is comparable.
   */
  lemma ComparisonsAgreeIff(grant: Scope, scopes: seq<Scope>)
    ensures (CodedAllows(grant, scopes) <==> DocumentedAllows(grant, scopes))
            <==> || Compares(grant, scopes, Some(Equal))
                 || (Compares(grant, scopes, Some(Less)) && Compares(grant, scopes, Some(Greater)))
                 || (forall i :: 0 <= i < |scopes| ==> PartialCmp(grant, scopes[i]) == None)
  {
    AllowsByComparison(grant, scopes);
    if !Compares(grant, scopes, Some(Equal)) && !Compares(grant, scopes, Some(Less))
        && !Compares(grant, scopes, Some(Greater)) {
      forall i | 0 <= i < |scopes| ensures PartialCmp(grant, scopes[i]) == None {
        var how := PartialCmp(grant, scopes[i]);
        assert Compares(grant, scopes, how);
      }
    }
  }
}
