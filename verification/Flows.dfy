/**
 * The whole server: any number of authorization, redemption and refresh flows, and other users of the
 * token store, sharing one Redis. A step begins a flow, does one local piece of work of a flow, runs
 * one Redis command of one call, or kills a call.
 */
module Flows {
  import opened Prelude
  import opened Grants
  import opened Registrars
  import opened PkceAddons
  import opened Stores
  import opened Interleaving
  import opened AuthorizationFlow
  import TokenErrors
  import Auth = AuthorizationMachine
  import Redeem = AccessTokenMachine
  import Renew = RefreshMachine

  /** The parts of the endpoint that stay fixed. */
  datatype Config = Config(reg: ClientMap, addons: Addons, digest: Digest, duration: Option<Time>)

  type FlowId = nat

  datatype Flow =
    | Consenting(authRequest: Auth.Request, owner: string, grant: Grant)
    | Redeeming(tokenRequest: Redeem.Request, redeem: Redeem.State)
    | Renewing(refreshRequest: Renew.Request, renew: Renew.State)
    | Other

  /** A flow makes at most two store calls, under process ids of their own. */
  function First(f: FlowId): Pid { 2 * f }

  function Second(f: FlowId): Pid { 2 * f + 1 }

  function FlowOf(p: Pid): FlowId { p / 2 }

  /**
   * `roots` remembers the grant first issued with each refresh tag, and `lookups` how long the log was when a
   * call looked up a refresh token; both are history only.
   */
  datatype World = World(sys: Sys, flows: map<FlowId, Flow>, roots: map<Tag, Grant>, lookups: map<Pid, nat>)

  datatype Action =
    | BeginConsent(flow: FlowId, authRequest: Auth.Request, owner: string, now: Time)
    | BeginRedeem(flow: FlowId, tokenRequest: Redeem.Request)
    | BeginRenew(flow: FlowId, refreshRequest: Renew.Request)
    | BeginOther(flow: FlowId, op: Op)
    | Local(flow: FlowId, now: Time)
    | Command(pid: Pid, choice: Choice)
    | Kill(pid: Pid)

  predicate InitWorld(w: World) {
    Init(w.sys) && w.flows == map[] && w.roots == map[] && w.lookups == map[]
  }

  /** Other users may issue and recover tokens and import grants; codes and refreshes are for the flows. */
  predicate OtherOp(op: Op) {
    op.IssueGetUsage? || op.RecoverTokenHget? || op.RecoverRefreshHget? || op.ImportHset?
  }

  function Consented(cfg: Config, request: Auth.Request, owner: string, now: Time): Option<Grant>
    requires ValidRegistry(cfg.reg)
  {
    RedirectsOnlyToRegisteredUrls(cfg.reg, cfg.addons, request);
    match Reference(cfg.reg, cfg.addons, request)
    case Ok(pending) => Some(ConsentGrant(pending, owner, now))
    case Err(_) => None
  }

  /** The store call a flow makes next, if its machine asks for one that is not under way yet. */
  function CallOf(cfg: Config, ops: map<Pid, Op>, f: FlowId, flow: Flow, now: Time): Option<(Pid, Op)> {
    match flow
    case Redeeming(_, Recover(_, code, _)) =>
      if First(f) !in ops then Some((First(f), ExtractHget(code))) else None
    case Redeeming(_, Issue(grant)) =>
      if Second(f) !in ops then Some((Second(f), BeginIssue(cfg.duration, now, grant))) else None
    case Renewing(_, Recovering(_, token)) =>
      if First(f) !in ops then Some((First(f), RecoverRefreshHget(token))) else None
    case Renewing(_, Issuing(grant, token)) =>
      if Second(f) !in ops then Some((Second(f), RefreshHgetRefresh(token, grant))) else None
    case _ => None
  }

  function Answer(ops: map<Pid, Op>, pid: Pid): Option<Outcome> {
    if pid in ops && ops[pid].Done? then Some(ops[pid].outcome) else None
  }

  /** One iteration of the `access_token` loop. Errors returned by a primitive end the flow. */
  function RedeemLocal(cfg: Config, ops: map<Pid, Op>, f: FlowId, request: Redeem.Request, st: Redeem.State,
                       now: Time): Redeem.State {
    match st
    case Authenticate(client, pass, _, _) =>
      (match Check(cfg.reg, client, pass)
       case Ok(_) => Redeem.Next(st, Redeem.Authenticated).0
       case Err(e) => Redeem.Failed(TokenErrors.FromRegistrar(e)))
    case Recover(_, _, _) =>
      (match Answer(ops, First(f))
       case None => st
       case Some(o) =>
         if o.Extracted? then Redeem.Next(st, Redeem.Recovered(o.grant, now)).0
             else Redeem.Failed(TokenErrors.Primitive))
    case Extend(_, extensions) =>
      (match ExtendToken(cfg.digest, cfg.addons, request, extensions)
       case Some(e) => Redeem.Next(st, Redeem.Extended(e)).0
       case None => Redeem.Failed(TokenErrors.Invalid(TokenErrors.InvalidRequest)))
    case Issue(_) =>
      (match Answer(ops, Second(f))
       case None => st
       case Some(o) =>
         if o.IssuedOk? then Redeem.Next(st, Redeem.Issued(Redeem.IssuedToken(o.token, Some(o.refresh), o.until))).0
         else Redeem.Failed(TokenErrors.Primitive))
    case Failed(_) => st
  }

  /** One iteration of the `refresh` loop. */
  function RenewLocal(cfg: Config, ops: map<Pid, Op>, f: FlowId, request: Renew.Request, st: Renew.State,
                      now: Time): Renew.State {
    match st
    case Authenticating(client, pass, _) =>
      (match Check(cfg.reg, client, pass)
       case Ok(_) => Renew.Next(st, Renew.Authenticated(request.scope, now)).0
       case Err(e) => Renew.Failed(TokenErrors.FromRegistrar(e)))
    case Recovering(_, _) =>
      (match Answer(ops, First(f))
       case None => st
       case Some(o) =>
         if o.RefreshRecovered? then Renew.Next(st, Renew.Recovered(request.scope, o.grant, now)).0
         else Renew.Failed(TokenErrors.Primitive))
    case CoAuthenticating(grant, _) =>
      (match Check(cfg.reg, grant.client, None)
       case Ok(_) => Renew.Next(st, Renew.Authenticated(request.scope, now)).0
       case Err(e) => Renew.Failed(TokenErrors.FromRegistrar(e)))
    case Issuing(_, _) =>
      (match Answer(ops, Second(f))
       case None => st
       case Some(o) =>
         if o.RefreshedOk? then Renew.Next(st, Renew.Refreshed(Renew.RefreshedToken(o.token, None, o.until))).0
         else Renew.Failed(TokenErrors.Primitive))
    case Failed(_) => st
  }

  function LocalFlow(cfg: Config, ops: map<Pid, Op>, f: FlowId, flow: Flow, now: Time): Flow {
    match flow
    case Redeeming(request, st) => Redeeming(request, RedeemLocal(cfg, ops, f, request, st, now))
    case Renewing(request, st) => Renewing(request, RenewLocal(cfg, ops, f, request, st, now))
    case _ => flow
  }

  /** What an action does to the store and its calls. */
  function SysMove(cfg: Config, w: World, a: Action): Option<Label>
    requires ValidRegistry(cfg.reg)
  {
    match a
    case BeginConsent(f, request, owner, now) =>
      (match Consented(cfg, request, owner, now)
       case Some(grant) => if f !in w.flows then Some(Start(First(f), AuthorizeGetUsage(grant))) else None
       case None => None)
    case BeginOther(f, op) => if f !in w.flows && OtherOp(op) then Some(Start(First(f), op)) else None
    case Local(f, now) =>
      if f in w.flows then
        match CallOf(cfg, w.sys.ops, f, w.flows[f], now)
        case Some((pid, op)) => Some(Start(pid, op))
        case None => None
      else None
    case Command(pid, c) => Some(Exec(pid, c))
    case Kill(pid) => Some(Crash(pid))
    case _ => None
  }

  /** What an action does to the flows. */
  function FlowMove(cfg: Config, w: World, a: Action): map<FlowId, Flow>
    requires ValidRegistry(cfg.reg)
  {
    match a
    case BeginConsent(f, request, owner, now) =>
      (match Consented(cfg, request, owner, now)
       case Some(grant) => if f !in w.flows then w.flows[f := Consenting(request, owner, grant)] else w.flows
       case None => w.flows)
    case BeginRedeem(f, request) =>
      if f !in w.flows then w.flows[f := Redeeming(request, Redeem.Validate(cfg.reg.parseUrl, request))] else w.flows
    case BeginRenew(f, request) =>
      if f !in w.flows then w.flows[f := Renewing(request, Renew.Initialize(request))] else w.flows
    case BeginOther(f, op) => if f !in w.flows && OtherOp(op) then w.flows[f := Other] else w.flows
    case Local(f, now) =>
      if f in w.flows then w.flows[f := LocalFlow(cfg, w.sys.ops, f, w.flows[f], now)] else w.flows
    case _ => w.flows
  }

  /** A refresh tag gets its root when `issue` first writes it. */
  function RootMove(w: World, a: Action): map<Tag, Grant> {
    if a.Command? && a.pid in w.sys.ops && w.sys.ops[a.pid].IssueHsetAccess? && a.choice.fault.Executed() then
      w.roots[w.sys.ops[a.pid].key := w.sys.ops[a.pid].token.grant]
    else w.roots
  }

  function LookupMove(w: World, a: Action): map<Pid, nat> {
    if a.Command? && a.pid in w.sys.ops && w.sys.ops[a.pid].RecoverRefreshHget? then w.lookups[a.pid := |w.sys.log|]
    else w.lookups
  }

  function NextWorld(cfg: Config, w: World, a: Action): World
    requires ValidRegistry(cfg.reg)
  {
    var move := SysMove(cfg, w, a);
    World(if move.Some? then Step(cfg.duration, w.sys, move.value) else w.sys, FlowMove(cfg, w, a),
          RootMove(w, a), LookupMove(w, a))
  }

  /** A local step touches one flow, starts at most one call, and logs nothing. */
  lemma LocalShape(cfg: Config, w: World, f: FlowId, now: Time)
    requires ValidRegistry(cfg.reg) && f in w.flows
    ensures var v := NextWorld(cfg, w, Local(f, now));
            var call := CallOf(cfg, w.sys.ops, f, w.flows[f], now);
            && v.flows == w.flows[f := LocalFlow(cfg, w.sys.ops, f, w.flows[f], now)]
            && v.sys == w.sys.(ops := if call.Some? then w.sys.ops[call.value.0 := call.value.1] else w.sys.ops)
            && (call.Some? ==> call.value.0 !in w.sys.ops)
            && v.roots == w.roots && v.lookups == w.lookups
  {
  }

  predicate FreshAction(cfg: Config, w: World, a: Action)
    requires ValidRegistry(cfg.reg)
  {
    var move := SysMove(cfg, w, a);
    move.Some? ==> FreshStep(cfg.duration, w.sys, move.value)
  }

  function RunWorld(cfg: Config, w: World, acts: seq<Action>): World
    requires ValidRegistry(cfg.reg)
    decreases |acts|
  {
    if acts == [] then w else RunWorld(cfg, NextWorld(cfg, w, acts[0]), acts[1..])
  }

  /** Tags never repeat in this run. */
  predicate FreshActions(cfg: Config, w: World, acts: seq<Action>)
    requires ValidRegistry(cfg.reg)
    decreases |acts|
  {
    acts != [] ==> FreshAction(cfg, w, acts[0]) && FreshActions(cfg, NextWorld(cfg, w, acts[0]), acts[1..])
  }
}
