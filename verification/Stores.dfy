/** What Redis holds for `TokenMap` and `AuthMap`, and their operations as programs of single commands. */
module Stores {
  import opened Prelude
  import opened Grants

  type Tag = string

  datatype Token = Token(access: Tag, refresh: Option<Tag>, grant: Grant)

  /** Two hashes and a counter for tokens, one hash and a counter for codes. */
  datatype Store = Store(
    access: map<Tag, Token>,
    refresh: map<Tag, Token>,
    tokenUsage: Option<u64>,
    codes: map<Tag, Grant>,
    codeUsage: Option<u64>)

  const EMPTY_STORE := Store(map[], map[], None, map[], None)

  /** A command may be refused before it runs, or run while its reply is lost. */
  datatype Fault = Healthy | Refused | ReplyLost {
    predicate Executed() { !Refused? }
  }

  /** What the outside world decides for one command: the fault, the tagger's answers, the clock. */
  datatype Choice = Choice(fault: Fault, first: Option<Tag>, second: Option<Tag>, now: Time)

  /** `assert!` and `unwrap` failures, and checked arithmetic overflow. */
  datatype PanicKind = AssertionFailed | ArithmeticOverflow

  datatype Outcome =
    | Failed
    | Panicked(kind: PanicKind)
    | IssuedOk(token: Tag, refresh: Tag, until: Time)
    | RefreshedOk(token: Tag, until: Time)
    | TokenRecovered(grant: Option<Grant>)
    | RefreshRecovered(key: Tag, grant: Option<Grant>)
    | Imported
    | CodeIssued(code: Tag)
    | Extracted(code: Tag, grant: Option<Grant>)

  /**
   * The program counter and local variables of one running call (primitives/issuer.rs,
   * primitives/authorizer.rs). `OpStep` runs exactly one Redis command together with the local work that
   * follows it, up to the next command.
   */
  datatype Op =
    // TokenMap::issue
    | IssueGetUsage(grant: Grant)
    | IssueHsetAccess(key: Tag, token: Token, next: u64)
    | IssueHsetRefresh(key: Tag, token: Token, next: u64)
    | IssueSetUsage(key: Tag, token: Token, next: u64)
    // TokenMap::refresh
    | RefreshHgetRefresh(key: Tag, grant: Grant)
    | RefreshHdelRefresh(key: Tag, grant: Grant, token: Token)
    | RefreshGetUsage(key: Tag, grant: Grant, token: Token)
    | RefreshHgetAccess(key: Tag, grant: Grant, token: Token, newAccess: Tag, next: u64)
    | RefreshHdelAccess(key: Tag, grant: Grant, token: Token, newAccess: Tag, next: u64, seen: Token)
    | RefreshHsetAccess(key: Tag, token: Token, next: u64)
    | RefreshHsetRefresh(key: Tag, token: Token, next: u64)
    | RefreshSetUsage(key: Tag, token: Token, next: u64)
    // TokenMap::recover_token, recover_refresh, import_grant
    | RecoverTokenHget(key: Tag)
    | RecoverRefreshHget(key: Tag)
    | ImportHset(key: Tag, grant: Grant)
    // AuthMap::authorize
    | AuthorizeGetUsage(grant: Grant)
    | AuthorizeHset(code: Tag, grant: Grant, next: u64)
    | AuthorizeSetUsage(code: Tag, grant: Grant, next: u64)
    // AuthMap::extract
    | ExtractHget(code: Tag)
    | ExtractHdel(code: Tag, grant: Grant)
    | Done(outcome: Outcome)

  /** An answer of the tagger together with the usage value it was asked with. */
  datatype Draw = Draw(usage: u64, tag: Tag)

  /** Facts worth remembering about a step; they do not influence any later step. */
  datatype Event =
    | Minted(token: Token)
    | CodeCreated(code: Tag, grant: Grant)
    | CodeTaken(code: Tag, grant: Grant)
    | CodeDropped(code: Tag)

  datatype Effect = Effect(
    store: Store,
    op: Op,
    tokenDraws: seq<Draw>,
    codeDraws: seq<Draw>,
    events: seq<Event>)

  /** `TokenMap::set_duration`. */
  function SetDuration(duration: Option<Time>, now: Time, grant: Grant): Grant {
    match duration
    case Some(d) => grant.(until := now + d)
    case None => grant
  }

  function BeginIssue(duration: Option<Time>, now: Time, grant: Grant): Op {
    IssueGetUsage(SetDuration(duration, now, grant))
  }

  predicate IsStart(op: Op) {
    || op.IssueGetUsage? || op.RefreshHgetRefresh? || op.RecoverTokenHget? || op.RecoverRefreshHget?
    || op.ImportHset? || op.AuthorizeGetUsage? || op.ExtractHget?
  }

  /** Every refresh entry was there before, with the same or a wider grant. */
  predicate NothingWidens(before: Store, after: Store) {
    forall k :: k in after.refresh ==> k in before.refresh && Narrows(after.refresh[k].grant, before.refresh[k].grant)
  }

  // ------------------------------------------------------------- one command

  function Quiet(store: Store, op: Op): Effect {
    Effect(store, op, [], [], [])
  }

  /** HSET on the access hash followed by `next` if it reported exactly one new field. */
  function HsetAccess(st: Store, token: Token, fault: Fault, next: Op): Effect {
    var isNew := token.access !in st.access;
    if fault.Executed() then
      Effect(st.(access := st.access[token.access := token]),
             if fault.Healthy? && isNew then next else Done(Failed), [], [], [Minted(token)])
    else Quiet(st, Done(Failed))
  }

  function HsetRefresh(st: Store, key: Tag, token: Token, fault: Fault, next: Op): Effect {
    var isNew := key !in st.refresh;
    if fault.Executed() then
      Quiet(st.(refresh := st.refresh[key := token]), if fault.Healthy? && isNew then next else Done(Failed))
    else Quiet(st, Done(Failed))
  }

  function SetTokenUsage(st: Store, value: u64, fault: Fault, next: Op): Effect {
    Quiet(if fault.Executed() then st.(tokenUsage := Some(value)) else st,
          if fault.Healthy? then next else Done(Failed))
  }

  /** After GET in `issue`: a missing or unreadable counter counts as 0, then two tags are drawn. */
  function IssueTag(st: Store, grant: Grant, c: Choice): Effect {
    var usage: u64 := if c.fault.Healthy? && st.tokenUsage.Some? then st.tokenUsage.value else 0;
    match (c.first, c.second)
    case (Some(a), Some(r)) =>
      Effect(st, IssueHsetAccess(r, Token(a, Some(r), grant), WrappingAdd(usage, 2)),
             [Draw(usage, a), Draw(WrappingAdd(usage, 1), r)], [], [])
    case (Some(a), None) => Effect(st, Done(Failed), [Draw(usage, a)], [], [])
    case (None, _) => Quiet(st, Done(Failed))
  }

  function HdelRefresh(st: Store, key: Tag, grant: Grant, token: Token, fault: Fault): Effect {
    if !fault.Executed() then Quiet(st, Done(Failed))
    else
      Quiet(st.(refresh := st.refresh - {key}),
            if !fault.Healthy? || key !in st.refresh then Done(Failed)
            else if token.refresh == Some(key) then RefreshGetUsage(key, grant, token)
            else Done(Panicked(AssertionFailed)))
  }

  /** After GET in `refresh`: here a missing counter is an error. */
  function RefreshTag(duration: Option<Time>, st: Store, key: Tag, grant: Grant, token: Token, c: Choice): Effect {
    if !c.fault.Healthy? || st.tokenUsage.None? then Quiet(st, Done(Failed))
    else
      match c.first
      case None => Quiet(st, Done(Failed))
      case Some(a) =>
        Effect(st, RefreshHgetAccess(key, SetDuration(duration, c.now, grant), token, a,
                                     WrappingAdd(st.tokenUsage.value, 1)),
               [Draw(st.tokenUsage.value, a)], [], [])
  }

  function HdelAccess(st: Store, op: Op, fault: Fault): Effect
    requires op.RefreshHdelAccess?
  {
    if !fault.Executed() then Quiet(st, Done(Failed))
    else
      Quiet(st.(access := st.access - {op.token.access}),
            if !fault.Healthy? || op.token.access !in st.access then Done(Failed)
            else if op.token.access == op.seen.access then
              RefreshHsetAccess(op.key, op.token.(access := op.newAccess, grant := op.grant), op.next)
            else Done(Panicked(AssertionFailed)))
  }

  /** After GET in `authorize`: `next_usage - 1` is computed with checked arithmetic. */
  function AuthorizeTag(st: Store, grant: Grant, c: Choice): Effect {
    var usage: u64 := if c.fault.Healthy? && st.codeUsage.Some? then st.codeUsage.value else 0;
    var next := WrappingAdd(usage, 1);
    if next == 0 then Quiet(st, Done(Panicked(ArithmeticOverflow)))
    else
      match c.first
      case None => Quiet(st, Done(Failed))
      case Some(code) => Effect(st, AuthorizeHset(code, grant, next), [], [Draw(next - 1, code)], [])
  }

  function HsetCode(st: Store, code: Tag, grant: Grant, next: u64, fault: Fault): Effect {
    var isNew := code !in st.codes;
    if fault.Executed() then
      Effect(st.(codes := st.codes[code := grant]),
             if fault.Healthy? && isNew then AuthorizeSetUsage(code, grant, next) else Done(Failed),
             [], [], if isNew then [CodeCreated(code, grant)] else [])
    else Quiet(st, Done(Failed))
  }

  function HdelCode(st: Store, code: Tag, grant: Grant, fault: Fault): Effect {
    if !fault.Executed() then Quiet(st, Done(Failed))
    else if code !in st.codes then Quiet(st, Done(Failed))
    else
      Effect(st.(codes := st.codes - {code}),
             if fault.Healthy? then Done(Extracted(code, Some(grant))) else Done(Failed),
             [], [], if fault.Healthy? then [CodeTaken(code, grant)] else [CodeDropped(code)])
  }

  function Lookup<V>(m: map<Tag, V>, key: Tag, fault: Fault): Option<V> {
    if fault.Healthy? && key in m then Some(m[key]) else None
  }

  predicate IsIssue(op: Op) {
    op.IssueGetUsage? || op.IssueHsetAccess? || op.IssueHsetRefresh? || op.IssueSetUsage?
  }

  predicate IsRefresh(op: Op) {
    || op.RefreshHgetRefresh? || op.RefreshHdelRefresh? || op.RefreshGetUsage? || op.RefreshHgetAccess?
    || op.RefreshHdelAccess? || op.RefreshHsetAccess? || op.RefreshHsetRefresh? || op.RefreshSetUsage?
  }

  predicate IsCode(op: Op) {
    op.AuthorizeGetUsage? || op.AuthorizeHset? || op.AuthorizeSetUsage? || op.ExtractHget? || op.ExtractHdel?
  }

  function IssueStep(st: Store, op: Op, c: Choice): Effect
    requires IsIssue(op)
  {
    match op
    case IssueGetUsage(grant) => IssueTag(st, grant, c)
    case IssueHsetAccess(key, token, next) => HsetAccess(st, token, c.fault, IssueHsetRefresh(key, token, next))
    case IssueHsetRefresh(key, token, next) => HsetRefresh(st, key, token, c.fault, IssueSetUsage(key, token, next))
    case IssueSetUsage(key, token, next) =>
      SetTokenUsage(st, next, c.fault, Done(IssuedOk(token.access, key, token.grant.until)))
  }

  function RefreshStep(duration: Option<Time>, st: Store, op: Op, c: Choice): Effect
    requires IsRefresh(op)
  {
    match op
    case RefreshHgetRefresh(key, grant) =>
      (match Lookup(st.refresh, key, c.fault)
       case Some(token) => Quiet(st, RefreshHdelRefresh(key, grant, token))
       case None => Quiet(st, Done(Failed)))
    case RefreshHdelRefresh(key, grant, token) => HdelRefresh(st, key, grant, token, c.fault)
    case RefreshGetUsage(key, grant, token) => RefreshTag(duration, st, key, grant, token, c)
    case RefreshHgetAccess(key, grant, token, newAccess, next) =>
      (match Lookup(st.access, token.access, c.fault)
       case Some(seen) => Quiet(st, RefreshHdelAccess(key, grant, token, newAccess, next, seen))
       case None => Quiet(st, Done(Failed)))
    case RefreshHdelAccess(_, _, _, _, _, _) => HdelAccess(st, op, c.fault)
    case RefreshHsetAccess(key, token, next) => HsetAccess(st, token, c.fault, RefreshHsetRefresh(key, token, next))
    case RefreshHsetRefresh(key, token, next) => HsetRefresh(st, key, token, c.fault, RefreshSetUsage(key, token, next))
    case RefreshSetUsage(key, token, next) =>
      SetTokenUsage(st, next, c.fault, Done(RefreshedOk(token.access, token.grant.until)))
  }

  /** The grant a running refresh will publish. */
  function Target(op: Op): Grant
    requires IsRefresh(op)
  {
    match op
    case RefreshHgetRefresh(_, grant) => grant
    case RefreshHdelRefresh(_, grant, _) => grant
    case RefreshGetUsage(_, grant, _) => grant
    case RefreshHgetAccess(_, grant, _, _, _) => grant
    case RefreshHdelAccess(_, grant, _, _, _, _) => grant
    case RefreshHsetAccess(_, token, _) => token.grant
    case RefreshHsetRefresh(_, token, _) => token.grant
    case RefreshSetUsage(_, token, _) => token.grant
  }

  function CodeStep(st: Store, op: Op, c: Choice): Effect
    requires IsCode(op)
  {
    match op
    case AuthorizeGetUsage(grant) => AuthorizeTag(st, grant, c)
    case AuthorizeHset(code, grant, next) => HsetCode(st, code, grant, next, c.fault)
    case AuthorizeSetUsage(code, grant, next) =>
      Quiet(if c.fault.Executed() then st.(codeUsage := Some(next)) else st,
            if c.fault.Healthy? then Done(CodeIssued(code)) else Done(Failed))
    case ExtractHget(code) =>
      (match Lookup(st.codes, code, c.fault)
       case Some(grant) => Quiet(st, ExtractHdel(code, grant))
       case None => Quiet(st, Done(Extracted(code, None))))
    case ExtractHdel(code, grant) => HdelCode(st, code, grant, c.fault)
  }

  function OpStep(duration: Option<Time>, st: Store, op: Op, c: Choice): Effect {
    if IsIssue(op) then IssueStep(st, op, c)
    else if IsRefresh(op) then RefreshStep(duration, st, op, c)
    else if IsCode(op) then CodeStep(st, op, c)
    else
      match op
      case RecoverTokenHget(key) =>
        Quiet(st, Done(TokenRecovered(GrantOf(Lookup(st.access, key, c.fault)))))
      case RecoverRefreshHget(key) =>
        Quiet(st, Done(RefreshRecovered(key, GrantOf(Lookup(st.refresh, key, c.fault)))))
      case ImportHset(key, grant) => HsetAccess(st, Token(key, None, grant), c.fault, Done(Imported))
      case Done(_) => Quiet(st, op)
  }

  function GrantOf(t: Option<Token>): Option<Grant> {
    match t
    case Some(token) => Some(token.grant)
    case None => None
  }

  // ----------------------------------------------------- one call on its own

  /** Runs the commands of one call, number `i` of `cs` deciding the fate of command `i`. */
  function RunFrom(duration: Option<Time>, st: Store, op: Op, cs: seq<Choice>, i: nat): (r: (Store, Op))
    requires i <= |cs|
    decreases |cs| - i
  {
    if i == |cs| || op.Done? then (st, op)
    else
      var e := OpStep(duration, st, op, cs[i]);
      RunFrom(duration, e.store, e.op, cs, i + 1)
  }

  function RunAlone(duration: Option<Time>, st: Store, op: Op, cs: seq<Choice>): (Store, Op) {
    RunFrom(duration, st, op, cs, 0)
  }

  /** One command of a call, as one step of its run. */
  lemma Unroll(d: Option<Time>, st: Store, op: Op, cs: seq<Choice>, i: nat, e: Effect)
    requires i < |cs| && !op.Done? && e == OpStep(d, st, op, cs[i])
    ensures RunFrom(d, st, op, cs, i) == RunFrom(d, e.store, e.op, cs, i + 1)
    ensures e.op.Done? ==> RunFrom(d, st, op, cs, i) == (e.store, e.op)
  {
  }

  lemma UnrollIssue(d: Option<Time>, st: Store, op: Op, cs: seq<Choice>, i: nat, st': Store, op': Op)
    requires i < |cs| && IsIssue(op)
    requires IssueStep(st, op, cs[i]).store == st' && IssueStep(st, op, cs[i]).op == op'
    ensures RunFrom(d, st, op, cs, i) == RunFrom(d, st', op', cs, i + 1)
    ensures op'.Done? ==> RunFrom(d, st, op, cs, i) == (st', op')
  {
    Unroll(d, st, op, cs, i, IssueStep(st, op, cs[i]));
  }

  lemma UnrollRefresh(d: Option<Time>, st: Store, op: Op, cs: seq<Choice>, i: nat, st': Store, op': Op)
    requires i < |cs| && IsRefresh(op)
    requires RefreshStep(d, st, op, cs[i]).store == st' && RefreshStep(d, st, op, cs[i]).op == op'
    ensures RunFrom(d, st, op, cs, i) == RunFrom(d, st', op', cs, i + 1)
    ensures op'.Done? ==> RunFrom(d, st, op, cs, i) == (st', op')
  {
    Unroll(d, st, op, cs, i, RefreshStep(d, st, op, cs[i]));
  }

  lemma UnrollCode(d: Option<Time>, st: Store, op: Op, cs: seq<Choice>, i: nat, st': Store, op': Op)
    requires i < |cs| && IsCode(op)
    requires CodeStep(st, op, cs[i]).store == st' && CodeStep(st, op, cs[i]).op == op'
    ensures RunFrom(d, st, op, cs, i) == RunFrom(d, st', op', cs, i + 1)
    ensures op'.Done? ==> RunFrom(d, st, op, cs, i) == (st', op')
  {
    Unroll(d, st, op, cs, i, CodeStep(st, op, cs[i]));
  }

  /** The answers the token tagger gives during such a run. */
  function DrawsFrom(duration: Option<Time>, st: Store, op: Op, cs: seq<Choice>, i: nat): seq<Draw>
    requires i <= |cs|
    decreases |cs| - i
  {
    if i == |cs| || op.Done? then []
    else
      var e := OpStep(duration, st, op, cs[i]);
      e.tokenDraws + DrawsFrom(duration, e.store, e.op, cs, i + 1)
  }

  /** A call first needs a connection; without one it fails and sends no command. */
  datatype Session = Session(connected: bool, choices: seq<Choice>)

  function CallAlone(duration: Option<Time>, st: Store, op: Op, session: Session): (Store, Op) {
    if session.connected then RunAlone(duration, st, op, session.choices) else (st, Done(Failed))
  }
}
